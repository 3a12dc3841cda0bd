/**
 What each event does to the records, said of the fields before and after and for
 every argument, ignored messages included.
 */
module CoordinatorEffects {
  import opened Basics
  import opened Types
  import opened Paths
  import opened TaskGraphs
  import opened Reservations
  import opened CoordinatorCore
  import opened CoordinatorInvariants
  import opened CoordinatorSteps
  import opened CoordinatorHistory
  import opened CoordinatorRuns
  import Lifecycle

  // ----- the words -----

  /** The state was saved, or lost with its save. */
  ghost predicate Written(c: Core, c1: Core, saved: bool) {
    c1.durable == Snapshot(c1) && c1.disk == if saved then c1.durable else c.disk
  }

  /** `t` is in state `s` and the graph is otherwise as it was. */
  ghost predicate Moved(g: Graph, g1: Graph, t: Id, s: TaskState) {
    t in g.states && g1 == g.(states := g.states[t := s])
  }

  /** `t` holds nothing any more; every other reservation is as it was. */
  ghost predicate Freed(c: Core, c1: Core, t: Id) {
    && c1.taskReservation == c.taskReservation - {t} && c1.reservations.Keys == c.reservations.Keys
    && forall r :: r in c.reservations ==>
         c1.reservations[r] == if c.reservations[r].taskId == t then c.reservations[r].(released := true)
                               else c.reservations[r]
  }

  ghost predicate SameHoldings(c: Core, c1: Core) {
    c1.reservations == c.reservations && c1.taskReservation == c.taskReservation
  }

  /** Only the attempt at `p` may have changed. */
  ghost predicate OnlyAt(m: map<Id, seq<Attempt>>, m1: map<Id, seq<Attempt>>, p: Spot) {
    && m1.Keys == m.Keys
    && (forall t :: t in m ==> |m1[t]| == |m[t]|)
    && (forall q :: IsSpot(m, q) && q != p ==> m1[q.task][q.index] == m[q.task][q.index])
  }

  ghost predicate SameFailure(a: Attempt, b: Attempt) {
    b.failureKind == a.failureKind && b.failureReason == a.failureReason
  }

  /** Nothing but the named parts differs. */
  ghost predicate Rest(c: Core, c1: Core) {
    c1 == c.(graph := c1.graph, attempts := c1.attempts, reservations := c1.reservations,
             taskReservation := c1.taskReservation, retryReadyAt := c1.retryReadyAt, readyAt := c1.readyAt,
             cancelRequested := c1.cancelRequested, durable := c1.durable, disk := c1.disk)
  }

  predicate UnderWay(s: AttemptState) {
    s == ATTEMPT_STARTED || s == ATTEMPT_DISPATCHED
  }

  // ----- helpers -----

  lemma PersistWrites(c: Core, c0: Core, saved: bool)
    requires c0.disk == c.disk
    ensures var c1 := Persist(c0, saved);
            && Written(c, c1, saved) && c1 == c0.(durable := c1.durable, disk := c1.disk)
  {
  }

  lemma FoundAt(c: Core, p: Spot, a: Id)
    requires MemoryInv(c) && Holds(c.attempts, p, a)
    ensures Known(c.attempts, a) && Find(c.attempts, a) == p && c.attempts[p.task][p.index].taskId == p.task
    ensures p.task in c.graph.tasks && p.task in c.graph.states
  {
    assert IdAt(c.attempts, p) == IdAt(c.attempts, Find(c.attempts, a));
    assert AttemptOk(c.attempts[p.task][p.index], p.task, Epoch(c));
  }

  lemma ReleaseFrees(c: Core, t: Id)
    requires MemoryInv(c)
    ensures Freed(c, ReleaseFor(c, t), t)
  {
    hide GraphInv, DepSafe, AttemptsInv;
  }

  lemma PutsOnlyAt(m: map<Id, seq<Attempt>>, p: Spot, a: Attempt)
    requires IsSpot(m, p)
    ensures OnlyAt(m, Put(m, p, a), p) && Put(m, p, a)[p.task][p.index] == a
  {
  }

  // ----- a completion -----

  /** Whether a completion may commit: the attempt is uncommitted, of this epoch and under way,
      the message names its reservation, its task is executing and nobody asked to cancel it. */
  ghost predicate Acceptable(c: Core, x: Attempt, reservation: Id) {
    && !x.committed && x.epoch == Epoch(c) && UnderWay(x.state) && x.reservationId == reservation
    && Executing(TaskStateOf(c, x.taskId)) && x.taskId !in c.cancelRequested
  }

  /** The attempt succeeded and delivered what was reported. */
  ghost predicate Delivers(x: Attempt, y: Attempt, out: Output, now: Int64) {
    && y.state == ATTEMPT_SUCCEEDED && y.committed && y.completedAtMs == now
    && y.outputSize == out.size && y.outputIntegrity == out.integrity && y.cpuMillis == out.millis
    && y.bytesTransferred == out.transferred && y.device == out.device
    && SameOrigin(x, y) && SameFailure(x, y) && y.startedAtMs == x.startedAtMs
  }

  lemma CompletionFrame(c: Core, p: Spot, reservation: Id, out: Output, now: Int64, saved: bool)
    requires IsSpot(c.attempts, p) && Acceptable(c, c.attempts[p.task][p.index], reservation)
    ensures var c1 := CompleteAt(c, p, reservation, out, now, saved);
            var x := c.attempts[p.task][p.index];
            && c1.attempts == Put(c.attempts, p, CommittedAttempt(x, out, now))
            && c1.retryReadyAt == c.retryReadyAt && Rest(c, c1) && Written(c, c1, saved)
            && c1.reservations == ReleaseFor(c, x.taskId).reservations
            && c1.taskReservation == ReleaseFor(c, x.taskId).taskReservation
            && c1.cancelRequested == c.cancelRequested - {x.taskId}
  {
    hide Snapshot, CommittedAttempt, SetState, MakeReady, Unblocked, ReleasedBook;
    var at := c.attempts[p.task][p.index];
    var c1 := c.(attempts := Put(c.attempts, p, CommittedAttempt(at, out, now)));
    var c2 := ReleaseFor(SetTask(c1, at.taskId, SUCCEEDED), at.taskId);
    PersistWrites(c, Unblock(c2.(cancelRequested := c2.cancelRequested - {at.taskId}), at.taskId, now), saved);
  }

  lemma CommitsIfAcceptable(c: Core, e: Event, p: Spot)
    requires MemoryInv(c) && e.step.DoComplete? && Holds(c.attempts, p, e.step.a)
    ensures CommitTask(c, e) == if Acceptable(c, c.attempts[p.task][p.index], e.step.reservation) then Some(p.task) else None
  {
    hide MemoryInv, Known;
    FoundAt(c, p, e.step.a);
  }

  lemma CompletesAt(c: Core, e: Event, p: Spot)
    requires MemoryInv(c) && e.step.DoComplete? && Holds(c.attempts, p, e.step.a)
    ensures Next(c, e) == CompleteAt(c, p, e.step.reservation, e.step.out, e.now, e.saved)
  {
    hide MemoryInv, Known, CompleteAt;
    FoundAt(c, p, e.step.a);
  }

  lemma CommittedDelivers(x: Attempt, out: Output, now: Int64)
    ensures Delivers(x, CommittedAttempt(x, out, now), out, now)
  {
  }

  /** A completion was committed: the attempt carries the five reported values, its task gives its
      reservation back, and no other attempt changes. */
  ghost predicate Commission(c: Core, c1: Core, p: Spot, out: Output, now: Int64, saved: bool)
    requires IsSpot(c.attempts, p)
  {
    && OnlyAt(c.attempts, c1.attempts, p)
    && Delivers(c.attempts[p.task][p.index], c1.attempts[p.task][p.index], out, now)
    && Freed(c, c1, p.task) && c1.retryReadyAt == c.retryReadyAt
    && c1.cancelRequested == c.cancelRequested - {p.task} && Rest(c, c1) && Written(c, c1, saved)
  }

  lemma FreedFrom(c: Core, c0: Core, c1: Core, t: Id)
    requires Freed(c, c0, t) && c1.reservations == c0.reservations && c1.taskReservation == c0.taskReservation
    ensures Freed(c, c1, t)
  {
  }

  lemma CommissionIs(c: Core, p: Spot, reservation: Id, out: Output, now: Int64, saved: bool)
    requires MemoryInv(c) && IsSpot(c.attempts, p) && Acceptable(c, c.attempts[p.task][p.index], reservation)
    requires c.attempts[p.task][p.index].taskId == p.task
    ensures Commission(c, CompleteAt(c, p, reservation, out, now, saved), p, out, now, saved)
  {
    var x, c1 := c.attempts[p.task][p.index], CompleteAt(c, p, reservation, out, now, saved);
    hide MemoryInv, CompleteAt, ReleaseFor, Written, Acceptable, OnlyAt, Put, Rest, Delivers, CommittedAttempt, Freed;
    CompletionFrame(c, p, reservation, out, now, saved);
    PutsOnlyAt(c.attempts, p, CommittedAttempt(x, out, now));
    CommittedDelivers(x, out, now);
    ReleaseFrees(c, p.task);
    FreedFrom(c, ReleaseFor(c, p.task), c1, p.task);
  }

  /** A completion commits exactly when it is acceptable, and then the attempt carries what was
      reported. */
  lemma CompletionDelivers(c: Core, e: Event, p: Spot)
    requires MemoryInv(c) && e.step.DoComplete? && Holds(c.attempts, p, e.step.a)
    ensures if Acceptable(c, c.attempts[p.task][p.index], e.step.reservation)
            then CommitTask(c, e) == Some(p.task) && Commission(c, Next(c, e), p, e.step.out, e.now, e.saved)
            else CommitTask(c, e) == None
  {
    hide MemoryInv, CompleteAt, Known, Next, CommitTask, Acceptable, Commission;
    FoundAt(c, p, e.step.a);
    CommitsIfAcceptable(c, e, p);
    if Acceptable(c, c.attempts[p.task][p.index], e.step.reservation) {
      CompletesAt(c, e, p);
      CommissionIs(c, p, e.step.reservation, e.step.out, e.now, e.saved);
    }
  }

  /** A blocked task that waited for `t` alone. */
  ghost predicate Awaits(g: Graph, u: Id, t: Id) {
    && u in g.states && g.states[u] == BLOCKED && t in Succ(g.deps, u)
    && forall d :: d in Succ(g.deps, u) && d != t ==> d in g.states && g.states[d] == SUCCEEDED
  }

  /** A running `t` has succeeded and exactly the tasks that waited for it alone are ready, from
      now on; a task that had not started is left as it was, and so are all others. */
  ghost predicate Succeeds(c: Core, c1: Core, t: Id, now: Int64)
    requires t in c.graph.states
  {
    var ran := c.graph.states[t] == RUNNING;
    && c1.graph == c.graph.(states := c1.graph.states) && c1.graph.states.Keys == c.graph.states.Keys
    && c1.graph.states[t] == (if ran then SUCCEEDED else c.graph.states[t])
    && (forall u :: u in c.graph.states && u != t ==>
          c1.graph.states[u] == if ran && Awaits(c.graph, u, t) then READY else c.graph.states[u])
    && (forall u :: if ran && Awaits(c.graph, u, t) then u in c1.readyAt && c1.readyAt[u] == now
                    else (u in c1.readyAt <==> u in c.readyAt) && (u in c.readyAt ==> c1.readyAt[u] == c.readyAt[u]))
  }

  lemma UnblockedAre(g: Graph, t: Id, u: Id)
    requires Inverse(g) && t in g.states && Executing(g.states[t])
    ensures u in Unblocked(SetState(g, t, SUCCEEDED), t) <==> g.states[t] == RUNNING && Awaits(g, u, t)
  {
    var g1 := SetState(g, t, SUCCEEDED);
    assert u in Succ(g.dependents, t) <==> t in Succ(g.deps, u);
    assert g1.deps == g.deps && g1.dependents == g.dependents;
    if u in Unblocked(g1, t) {
      forall d | d in Succ(g.deps, u) && d != t ensures d in g.states && g.states[d] == SUCCEEDED {}
    }
  }

  lemma ReadiedStates(g: Graph, t: Id, ds: set<Id>, u: Id)
    requires t in g.states && Executing(g.states[t])
    requires u in ds <==> g.states[t] == RUNNING && Awaits(g, u, t)
    ensures var g2 := MakeReady(SetState(g, t, SUCCEEDED), ds);
            && g2 == g.(states := g2.states) && g2.states.Keys == g.states.Keys
            && (u in g.states ==> g2.states[u] == if u in ds then READY else if u == t && g.states[t] == RUNNING then SUCCEEDED
                                                else g.states[u])
            && (u == t ==> u !in ds)
  {
  }

  lemma SucceedsIs(c: Core, c1: Core, t: Id, now: Int64)
    requires Inverse(c.graph) && t in c.graph.states && Executing(c.graph.states[t])
    requires var g1 := SetState(c.graph, t, SUCCEEDED);
             && c1.graph == MakeReady(g1, Unblocked(g1, t)) && c1.readyAt == Stamp(c.readyAt, Unblocked(g1, t), now)
    ensures Succeeds(c, c1, t, now)
  {
    var ds := Unblocked(SetState(c.graph, t, SUCCEEDED), t);
    hide Inverse, Unblocked, Awaits, SetState, MakeReady;
    forall u
      ensures u in ds <==> c.graph.states[t] == RUNNING && Awaits(c.graph, u, t)
      ensures c1.graph == c.graph.(states := c1.graph.states) && c1.graph.states.Keys == c.graph.states.Keys
      ensures u in c.graph.states ==>
                c1.graph.states[u] == if u in ds then READY else if u == t && c.graph.states[t] == RUNNING then SUCCEEDED
                                      else c.graph.states[u]
      ensures u == t ==> u !in ds
    {
      UnblockedAre(c.graph, t, u);
      ReadiedStates(c.graph, t, ds, u);
    }
  }

  lemma CompletionShape(c: Core, p: Spot, reservation: Id, out: Output, now: Int64, saved: bool)
    requires IsSpot(c.attempts, p) && Acceptable(c, c.attempts[p.task][p.index], reservation)
    ensures var c1, t := CompleteAt(c, p, reservation, out, now, saved), c.attempts[p.task][p.index].taskId;
            var g1 := SetState(c.graph, t, SUCCEEDED);
            c1.graph == MakeReady(g1, Unblocked(g1, t)) && c1.readyAt == Stamp(c.readyAt, Unblocked(g1, t), now)
  {
    hide Snapshot, CommittedAttempt, SetState, MakeReady, Unblocked, ReleasedBook, Stamp;
    var at := c.attempts[p.task][p.index];
    var c1 := c.(attempts := Put(c.attempts, p, CommittedAttempt(at, out, now)));
    var c2 := ReleaseFor(SetTask(c1, at.taskId, SUCCEEDED), at.taskId);
    PersistWrites(c, Unblock(c2.(cancelRequested := c2.cancelRequested - {at.taskId}), at.taskId, now), saved);
  }

  /** When a completion commits, a running task succeeds and exactly the tasks that waited for it
      alone are ready. */
  lemma CompletionReadies(c: Core, e: Event, p: Spot)
    requires MemoryInv(c) && e.step.DoComplete? && Holds(c.attempts, p, e.step.a)
    requires Acceptable(c, c.attempts[p.task][p.index], e.step.reservation)
    ensures p.task in c.graph.states && Succeeds(c, Next(c, e), p.task, e.now)
  {
    hide MemoryInv, WellFormed, Complete, Acyclic, AttemptsInv, CompleteAt, Known, Next, SetState, MakeReady, Unblocked, Stamp,
      Succeeds;
    FoundAt(c, p, e.step.a);
    GraphIsSound(c);
    CompletesAt(c, e, p);
    CompletionShape(c, p, e.step.reservation, e.step.out, e.now, e.saved);
    SucceedsIs(c, Next(c, e), p.task, e.now);
  }

  /** The attempt at `p` is closed as cancelled and its task taken off its node. */
  ghost predicate Closure(c: Core, c1: Core, p: Spot, reason: Bytes, now: Int64, saved: bool)
    requires IsSpot(c.attempts, p)
  {
    && OnlyAt(c.attempts, c1.attempts, p)
    && Closed(c.attempts[p.task][p.index], c1.attempts[p.task][p.index], now)
    && c1.attempts[p.task][p.index].failureReason == reason
    && Preempted(c.graph, c1.graph, p.task) && Freed(c, c1, p.task)
    && SameTimes(c, c1) && Rest(c, c1) && Written(c, c1, saved)
  }

  ghost predicate SameTimes(c: Core, c1: Core) {
    c1.retryReadyAt == c.retryReadyAt && c1.readyAt == c.readyAt && c1.cancelRequested == c.cancelRequested
  }

  ghost function ClosedAttempt(x: Attempt, reason: Bytes, now: Int64): (y: Attempt)
    ensures Closed(x, y, now) && y.failureReason == reason
  {
    x.(state := ATTEMPT_CANCELLED, failureKind := FAILURE_CANCELLED, failureReason := reason, completedAtMs := now)
  }

  ghost function ClosedCore(c: Core, p: Spot, reason: Bytes, now: Int64): Core
    requires IsSpot(c.attempts, p)
  {
    ReleaseFor(c.(attempts := Put(c.attempts, p, ClosedAttempt(c.attempts[p.task][p.index], reason, now)),
                  graph := SetState(c.graph, p.task, PREEMPTED)), p.task)
  }

  lemma ClosureIs(c: Core, p: Spot, reason: Bytes, now: Int64, saved: bool)
    requires MemoryInv(c) && IsSpot(c.attempts, p)
    ensures Closure(c, Persist(ClosedCore(c, p, reason, now), saved), p, reason, now, saved)
  {
    var y := ClosedAttempt(c.attempts[p.task][p.index], reason, now);
    hide MemoryInv, Written, Persist, OnlyAt, Put, Closed, ClosedAttempt, Freed, SetState, Preempted, ReleasedBook;
    PersistWrites(c, ClosedCore(c, p, reason, now), saved);
    PutsOnlyAt(c.attempts, p, y);
    PreemptedIs(c.graph, p.task);
    ReleaseFrees(c, p.task);
    FreedFrom(c, ReleaseFor(c, p.task), Persist(ClosedCore(c, p, reason, now), saved), p.task);
  }

  const CANCELLED_WORD: Bytes := [99, 97, 110, 99, 101, 108, 108, 101, 100]

  lemma RefusalShape(c: Core, p: Spot, reservation: Id, out: Output, now: Int64, saved: bool)
    requires IsSpot(c.attempts, p) && !c.attempts[p.task][p.index].committed
    requires c.attempts[p.task][p.index].taskId == p.task && p.task in c.cancelRequested
    ensures CompleteAt(c, p, reservation, out, now, saved) == Persist(ClosedCore(c, p, CANCELLED_WORD, now), saved)
  {
    hide Persist, SetState, ReleasedBook, Unblock, CompletionValid, CommittedAttempt;
  }

  lemma IgnoredCompletion(c: Core, p: Spot, reservation: Id, out: Output, now: Int64, saved: bool)
    requires IsSpot(c.attempts, p) && c.attempts[p.task][p.index].taskId == p.task
    requires !Acceptable(c, c.attempts[p.task][p.index], reservation)
    requires c.attempts[p.task][p.index].committed || p.task !in c.cancelRequested
    ensures CompleteAt(c, p, reservation, out, now, saved) == c
  {
    hide Persist, SetState, ReleasedBook, Unblock, CommittedAttempt;
  }

  /** A completion of a task whose cancellation was asked for is refused, and the attempt
      closed as cancelled. Any other completion that does not commit changes nothing. */
  lemma CompletionRefused(c: Core, e: Event, p: Spot)
    requires MemoryInv(c) && e.step.DoComplete? && Holds(c.attempts, p, e.step.a)
    requires !Acceptable(c, c.attempts[p.task][p.index], e.step.reservation)
    ensures if !c.attempts[p.task][p.index].committed && p.task in c.cancelRequested
            then Closure(c, Next(c, e), p, CANCELLED_WORD, e.now, e.saved)
            else Next(c, e) == c
  {
    hide MemoryInv, Known, Next, CompleteAt, Closure, ClosedCore, Acceptable, Persist;
    FoundAt(c, p, e.step.a);
    CompletesAt(c, e, p);
    if !c.attempts[p.task][p.index].committed && p.task in c.cancelRequested {
      RefusalShape(c, p, e.step.reservation, e.step.out, e.now, e.saved);
      ClosureIs(c, p, CANCELLED_WORD, e.now, e.saved);
    } else {
      IgnoredCompletion(c, p, e.step.reservation, e.step.out, e.now, e.saved);
    }
  }

  /** The attempt was closed as cancelled. */
  ghost predicate Closed(x: Attempt, y: Attempt, now: Int64) {
    && y.state == ATTEMPT_CANCELLED && y.failureKind == FAILURE_CANCELLED && y.completedAtMs == now
    && SameOrigin(x, y) && SameResult(x, y) && y.startedAtMs == x.startedAtMs && y.device == x.device
  }

  /** The task was taken off its node: from Reserved, Dispatching or Running, and only from
      there, it is Preempted. */
  ghost predicate Preempted(g: Graph, g1: Graph, t: Id) {
    if t in g.states && g.states[t] in {RESERVED, DISPATCHING, RUNNING} then Moved(g, g1, t, PREEMPTED) else g1 == g
  }

  lemma PreemptedIs(g: Graph, t: Id)
    ensures Preempted(g, SetState(g, t, PREEMPTED), t)
  {
  }

  // ----- the other messages about an attempt -----

  /** The attempt at `p` is marked started and its task, if dispatching, runs. */
  ghost predicate Beginning(c: Core, c1: Core, p: Spot, startedAt: Int64, device: Bytes, saved: bool)
    requires IsSpot(c.attempts, p)
  {
    && OnlyAt(c.attempts, c1.attempts, p)
    && Begun(c.attempts[p.task][p.index], c1.attempts[p.task][p.index], startedAt, device)
    && (if TaskStateOf(c, p.task) == DISPATCHING then Moved(c.graph, c1.graph, p.task, RUNNING) else c1.graph == c.graph)
    && SameHoldings(c, c1) && SameTimes(c, c1) && Rest(c, c1) && Written(c, c1, saved)
  }

  ghost function BegunAttempt(x: Attempt, startedAt: Int64, device: Bytes): (y: Attempt)
    ensures Begun(x, y, startedAt, device)
  {
    x.(state := ATTEMPT_STARTED, startedAtMs := startedAt, device := device)
  }

  ghost function BegunCore(c: Core, p: Spot, startedAt: Int64, device: Bytes): Core
    requires IsSpot(c.attempts, p)
  {
    c.(attempts := Put(c.attempts, p, BegunAttempt(c.attempts[p.task][p.index], startedAt, device)),
       graph := SetState(c.graph, p.task, RUNNING))
  }

  lemma BeginShape(c: Core, e: Event, p: Spot)
    requires MemoryInv(c) && e.step.DoStarted? && Holds(c.attempts, p, e.step.a)
    ensures Next(c, e) == if c.attempts[p.task][p.index].epoch != Epoch(c) then c
                          else Persist(BegunCore(c, p, e.step.startedAt, e.step.device), e.saved)
  {
    hide MemoryInv, Known, Persist, SetState;
    FoundAt(c, p, e.step.a);
  }

  lemma RunningIs(g: Graph, t: Id)
    requires t in g.states
    ensures if StateOf(g, t) == DISPATCHING then Moved(g, SetState(g, t, RUNNING), t, RUNNING) else SetState(g, t, RUNNING) == g
  {
  }

  lemma BeginningIs(c: Core, p: Spot, startedAt: Int64, device: Bytes, saved: bool)
    requires IsSpot(c.attempts, p) && p.task in c.graph.states
    ensures Beginning(c, Persist(BegunCore(c, p, startedAt, device), saved), p, startedAt, device, saved)
  {
    hide Persist, Written, SetState, OnlyAt, Put, Begun, BegunAttempt, Moved;
    PersistWrites(c, BegunCore(c, p, startedAt, device), saved);
    PutsOnlyAt(c.attempts, p, BegunAttempt(c.attempts[p.task][p.index], startedAt, device));
    RunningIs(c.graph, p.task);
  }

  /** A started message of this epoch marks the attempt started, whatever it was before, and
      moves a dispatching task to Running. Of another epoch it changes nothing. */
  lemma StartedMarks(c: Core, e: Event, p: Spot)
    requires MemoryInv(c) && e.step.DoStarted? && Holds(c.attempts, p, e.step.a)
    ensures if c.attempts[p.task][p.index].epoch != Epoch(c) then Next(c, e) == c
            else Beginning(c, Next(c, e), p, e.step.startedAt, e.step.device, e.saved)
  {
    hide MemoryInv, Known, Next, Beginning, BegunCore, Persist;
    FoundAt(c, p, e.step.a);
    BeginShape(c, e, p);
    BeginningIs(c, p, e.step.startedAt, e.step.device, e.saved);
  }

  ghost predicate Begun(x: Attempt, y: Attempt, startedAt: Int64, device: Bytes) {
    && y.state == ATTEMPT_STARTED && y.startedAtMs == startedAt && y.device == device
    && SameOrigin(x, y) && SameResult(x, y) && SameFailure(x, y) && y.completedAtMs == x.completedAtMs
  }

  lemma NodeCancelShape(c: Core, e: Event, p: Spot)
    requires MemoryInv(c) && e.step.DoCancelled? && Holds(c.attempts, p, e.step.a)
    ensures Next(c, e) == if c.attempts[p.task][p.index].epoch != Epoch(c) then c
                          else Persist(ClosedCore(c, p, e.step.reason, e.now), e.saved)
  {
    hide MemoryInv, Known, Persist, SetState, ReleasedBook;
    FoundAt(c, p, e.step.a);
  }

  /** A cancellation reported by the node closes the attempt, committed or not, and takes the
      task off the node. */
  lemma NodeCancelCloses(c: Core, e: Event, p: Spot)
    requires MemoryInv(c) && e.step.DoCancelled? && Holds(c.attempts, p, e.step.a)
    ensures if c.attempts[p.task][p.index].epoch != Epoch(c) then Next(c, e) == c
            else Closure(c, Next(c, e), p, e.step.reason, e.now, e.saved)
  {
    hide MemoryInv, Known, Next, Closure, ClosedCore, Persist;
    NodeCancelShape(c, e, p);
    ClosureIs(c, p, e.step.reason, e.now, e.saved);
  }

  /** A message about an attempt nobody knows changes nothing. */
  lemma UnknownIsIgnored(c: Core, e: Event, a: Id)
    requires !Known(c.attempts, a)
    requires match e.step
             case DoStarted(b, _, _) => b == a
             case DoComplete(b, _, _) => b == a
             case DoFailed(b, _, _) => b == a
             case DoCancelled(b, _) => b == a
             case _ => false
    ensures Next(c, e) == c
  {
  }

  // ----- a failure -----

  /** Whether the policy has another attempt after one with this number that failed so. The
      number plus one wraps at 2^32. */
  ghost predicate Another(policy: RetryPolicy, number: U32, kind: FailureKind) {
    && policy.maxAttempts > 1
    && (number + 1 < policy.maxAttempts || number == TWO_32 - 1)
    && (kind == NODE_LOST ==> policy.retryOnNodeLoss)
    && (kind == EXECUTOR_FAILED ==> policy.retryOnExecutorFailure)
  }

  ghost predicate Fails(x: Attempt, y: Attempt, kind: FailureKind, reason: Bytes, now: Int64) {
    && y.state == ATTEMPT_FAILED && y.failureKind == kind && y.failureReason == reason && y.completedAtMs == now
    && SameOrigin(x, y) && SameResult(x, y) && y.startedAtMs == x.startedAtMs && y.device == x.device
  }

  /** Where a task in state `s` goes when an attempt of it is over: from Running, Lost and
      Preempted to Retry or Failed; a failed task may still be retried; any other stays. */
  function Resolved(s: TaskState, again: bool): TaskState {
    if s == RUNNING || s == LOST || s == PREEMPTED || s == FAILED then (if again then RETRY_PENDING else FAILED) else s
  }

  lemma ResolvedIs(g: Graph, t: Id, again: bool)
    requires t in g.states
    ensures SetState(g, t, if again then RETRY_PENDING else FAILED)
            == g.(states := g.states[t := Resolved(g.states[t], again)])
  {
    assert g.states[t := g.states[t]] == g.states;
  }

  /** The back-off timer of `t` is set, or all timers are as they were. */
  ghost predicate Timed(c: Core, c1: Core, t: Id, again: bool, now: Int64)
    requires t in c.graph.tasks
  {
    c1.retryReadyAt == if again then c.retryReadyAt[t := now + AsInt64(c.graph.tasks[t].retry.retryBackoffMs)]
                       else c.retryReadyAt
  }

  lemma FailsAt(c: Core, e: Event, p: Spot)
    requires MemoryInv(c) && e.step.DoFailed? && Holds(c.attempts, p, e.step.a)
    ensures Next(c, e) == FailAt(c, p, e.step.kind, e.step.reason, e.now, e.saved)
  {
    hide MemoryInv, Known, FailAt;
    FoundAt(c, p, e.step.a);
  }

  lemma AnotherIs(task: ComputeTask, number: U32, kind: FailureKind)
    ensures MayRetry(task, number, kind) <==> Another(task.retry, number, kind)
  {
  }

  ghost predicate Over(c: Core, x: Attempt) {
    x.epoch != Epoch(c) || x.committed || x.state == ATTEMPT_SUCCEEDED
  }

  ghost function FailedAttempt(x: Attempt, kind: FailureKind, reason: Bytes, now: Int64): (y: Attempt)
    ensures Fails(x, y, kind, reason, now)
  {
    x.(state := ATTEMPT_FAILED, failureKind := kind, failureReason := reason, completedAtMs := now)
  }

  /** The core a failure leads to, before it is saved. */
  ghost function FailedCore(c: Core, p: Spot, again: bool, kind: FailureKind, reason: Bytes, now: Int64): Core
    requires IsSpot(c.attempts, p)
  {
    ReleaseFor(c.(attempts := Put(c.attempts, p, FailedAttempt(c.attempts[p.task][p.index], kind, reason, now))), p.task).(
      graph := SetState(c.graph, p.task, if again then RETRY_PENDING else FAILED),
      retryReadyAt := StartBackoff(c.retryReadyAt, c.graph, p.task, again, now))
  }

  ghost function Again(c: Core, p: Spot, kind: FailureKind): bool
    requires IsSpot(c.attempts, p) && p.task in c.graph.tasks && p.task in c.graph.states
  {
    && c.graph.states[p.task] != SUCCEEDED
    && Another(c.graph.tasks[p.task].retry, c.attempts[p.task][p.index].attemptNumber, kind)
  }

  lemma FailureShape(c: Core, p: Spot, kind: FailureKind, reason: Bytes, now: Int64, saved: bool)
    requires IsSpot(c.attempts, p) && c.attempts[p.task][p.index].taskId == p.task
    requires p.task in c.graph.tasks && p.task in c.graph.states && !Over(c, c.attempts[p.task][p.index])
    ensures FailAt(c, p, kind, reason, now, saved) == Persist(FailedCore(c, p, Again(c, p, kind), kind, reason, now), saved)
  {
    hide Persist, ReleasedBook, SetState, Another, MayRetry, StartBackoff;
    AnotherIs(c.graph.tasks[p.task], c.attempts[p.task][p.index].attemptNumber, kind);
  }

  lemma FailureFrame(c: Core, p: Spot, again: bool, kind: FailureKind, reason: Bytes, now: Int64, saved: bool)
    requires IsSpot(c.attempts, p) && p.task in c.graph.tasks
    ensures var c1 := Persist(FailedCore(c, p, again, kind, reason, now), saved);
            && c1.attempts == Put(c.attempts, p, FailedAttempt(c.attempts[p.task][p.index], kind, reason, now))
            && c1.graph == SetState(c.graph, p.task, if again then RETRY_PENDING else FAILED)
            && Timed(c, c1, p.task, again, now)
            && c1.reservations == ReleaseFor(c, p.task).reservations
            && c1.taskReservation == ReleaseFor(c, p.task).taskReservation
            && c1.readyAt == c.readyAt && c1.cancelRequested == c.cancelRequested && Rest(c, c1) && Written(c, c1, saved)
  {
    hide ReleasedBook, SetState, Persist, Written, FailedAttempt;
    PersistWrites(c, FailedCore(c, p, again, kind, reason, now), saved);
  }

  /** The failure of the attempt at `p` is recorded, the task gives its reservation back, and waits
      for another attempt exactly if the policy has one. */
  ghost predicate Failure(c: Core, c1: Core, p: Spot, kind: FailureKind, reason: Bytes, now: Int64, saved: bool)
    requires IsSpot(c.attempts, p) && p.task in c.graph.tasks && p.task in c.graph.states
  {
    var x, s := c.attempts[p.task][p.index], c.graph.states[p.task];
    var again := s != SUCCEEDED && Another(c.graph.tasks[p.task].retry, x.attemptNumber, kind);
    && OnlyAt(c.attempts, c1.attempts, p) && Fails(x, c1.attempts[p.task][p.index], kind, reason, now)
    && Moved(c.graph, c1.graph, p.task, Resolved(s, again)) && Timed(c, c1, p.task, again, now)
    && Freed(c, c1, p.task) && c1.readyAt == c.readyAt && c1.cancelRequested == c.cancelRequested
    && Rest(c, c1) && Written(c, c1, saved)
  }

  lemma FailureIs(c: Core, p: Spot, kind: FailureKind, reason: Bytes, now: Int64, saved: bool)
    requires MemoryInv(c) && IsSpot(c.attempts, p) && p.task in c.graph.tasks && p.task in c.graph.states
    ensures Failure(c, Persist(FailedCore(c, p, Again(c, p, kind), kind, reason, now), saved), p, kind, reason, now, saved)
  {
    var x, again := c.attempts[p.task][p.index], Again(c, p, kind);
    var c1 := Persist(FailedCore(c, p, again, kind, reason, now), saved);
    hide MemoryInv, SetState, OnlyAt, Put, Rest, Written, ReleaseFor, Timed, FailedAttempt, Another, FailedCore, Persist, Fails,
      Freed, Resolved;
    FailureFrame(c, p, again, kind, reason, now, saved);
    PutsOnlyAt(c.attempts, p, FailedAttempt(x, kind, reason, now));
    ResolvedIs(c.graph, p.task, again);
    ReleaseFrees(c, p.task);
    FreedFrom(c, ReleaseFor(c, p.task), c1, p.task);
  }

  /** A failure of an uncommitted attempt of this epoch is recorded and decides whether there is
      another attempt. Any other failure message changes nothing. */
  lemma FailureDecides(c: Core, e: Event, p: Spot)
    requires MemoryInv(c) && e.step.DoFailed? && Holds(c.attempts, p, e.step.a)
    ensures p.task in c.graph.tasks && p.task in c.graph.states
    ensures if Over(c, c.attempts[p.task][p.index]) then Next(c, e) == c
            else Failure(c, Next(c, e), p, e.step.kind, e.step.reason, e.now, e.saved)
  {
    FoundAt(c, p, e.step.a);
    FailsAt(c, e, p);
    if !Over(c, c.attempts[p.task][p.index]) {
      hide MemoryInv, Known, Next, FailAt, FailedCore, Persist, Failure, Over;
      FailureShape(c, p, e.step.kind, e.step.reason, e.now, e.saved);
      FailureIs(c, p, e.step.kind, e.step.reason, e.now, e.saved);
    }
  }

  // ----- clients -----

  /** States out of which a task is cancelled at once. */
  predicate Cancellable(s: TaskState) {
    s in {SUBMITTED, BLOCKED, READY, PLANNING, RESERVED, DISPATCHING, RETRY_PENDING}
  }

  lemma CancellableIs(s: TaskState)
    ensures Cancellable(s) <==> !Lifecycle.IsTerminal(s) && s != RUNNING && Lifecycle.IsLegal(s, CANCELLED)
    ensures s == RUNNING ==> !Lifecycle.IsTerminal(s)
  {
  }

  /** `t` is Cancelled and gives its reservation back. */
  ghost predicate Cancellation(c: Core, c1: Core, t: Id, saved: bool) {
    && Moved(c.graph, c1.graph, t, CANCELLED) && Freed(c, c1, t) && c1.attempts == c.attempts
    && c1.cancelRequested == c.cancelRequested - {t}
    && c1.retryReadyAt == c.retryReadyAt && c1.readyAt == c.readyAt && Rest(c, c1) && Written(c, c1, saved)
  }

  /** The cancellation of `t` is asked for; nothing else changes. */
  ghost predicate Marked(c: Core, c1: Core, t: Id) {
    && c1.cancelRequested == c.cancelRequested + {t}
    && (forall u :: AttemptsOf(c1.attempts, u) == AttemptsOf(c.attempts, u))
    && c1 == c.(cancelRequested := c1.cancelRequested, attempts := c1.attempts)
  }

  ghost function CancelledCore(c: Core, t: Id): Core {
    ReleaseFor(c.(graph := SetState(c.graph, t, CANCELLED), cancelRequested := c.cancelRequested - {t}), t)
  }

  lemma CancelShape(c: Core, t: Id, saved: bool)
    requires t in c.graph.tasks && t in c.graph.states && Cancellable(c.graph.states[t])
    ensures Cancel(c, t, saved) == Persist(CancelledCore(c, t), saved)
    ensures Moved(c.graph, SetState(c.graph, t, CANCELLED), t, CANCELLED)
  {
    hide Persist, ReleasedBook, Cancellable;
    hide Lifecycle.IsTerminal, Lifecycle.IsLegal;
    CancellableIs(c.graph.states[t]);
  }

  lemma CancellationIs(c: Core, t: Id, saved: bool)
    requires MemoryInv(c) && Moved(c.graph, SetState(c.graph, t, CANCELLED), t, CANCELLED)
    ensures Cancellation(c, Persist(CancelledCore(c, t), saved), t, saved)
  {
    hide MemoryInv, Persist, Written, ReleasedBook, SetState, Freed, Moved;
    PersistWrites(c, CancelledCore(c, t), saved);
    ReleaseFrees(c, t);
    FreedFrom(c, ReleaseFor(c, t), Persist(CancelledCore(c, t), saved), t);
  }

  lemma CancelMarks(c: Core, t: Id, saved: bool)
    requires t in c.graph.states && t in c.graph.tasks && !Cancellable(c.graph.states[t])
    ensures if c.graph.states[t] == RUNNING then Marked(c, Cancel(c, t, saved), t) else Cancel(c, t, saved) == c
  {
    hide Persist, ReleaseFor, SetTask, Cancellable;
    hide Lifecycle.IsTerminal, Lifecycle.IsLegal;
    CancellableIs(c.graph.states[t]);
  }

  /** Asking to cancel: a running task is marked and goes on; any other that is not over is
      Cancelled at once and gives its reservation back; one that is over is left alone. */
  lemma CancelAsks(c: Core, e: Event)
    requires MemoryInv(c) && e.step.DoCancel?
    ensures var t, c1 := e.step.t, Next(c, e);
            if t !in c.graph.tasks then c1 == c
            else if TaskStateOf(c, t) == RUNNING then Marked(c, c1, t)
            else if Cancellable(TaskStateOf(c, t)) then Cancellation(c, c1, t, e.saved)
            else c1 == c
  {
    var t := e.step.t;
    if t in c.graph.tasks {
      TaskHasState(c, t);
      hide MemoryInv, Cancel, Cancellable, Marked, Cancellation, CancelledCore, Persist, Moved;
      if Cancellable(c.graph.states[t]) {
        assert c.graph.states[t] != RUNNING by { CancellableIs(c.graph.states[t]); }
        CancelShape(c, t, e.saved);
        CancellationIs(c, t, e.saved);
      } else {
        CancelMarks(c, t, e.saved);
      }
    }
  }

  lemma TaskHasState(c: Core, t: Id)
    requires MemoryInv(c) && t in c.graph.tasks
    ensures t in c.graph.states && WellFormed(c.graph)
  {
    GraphIsSound(c);
  }

  /** Whether a submission is taken in. */
  ghost predicate Welcome(c: Core, task: ComputeTask, stopping: bool) {
    task.id !in c.graph.tasks && task.id != ZERO_ID && !stopping && forall d :: d in task.dependencies ==> d in c.graph.tasks
  }

  lemma Unwelcome(c: Core, e: Event)
    requires e.step.DoSubmit? && !Welcome(c, e.step.task, e.step.stopping)
    ensures Next(c, e) == c
  {
    hide Persist, Added, SetState;
  }

  lemma SubmitShape(c: Core, e: Event)
    requires MemoryInv(c) && e.step.DoSubmit? && Welcome(c, e.step.task, e.step.stopping)
    ensures Next(c, e) == Persist(
              c.(graph := SetState(Extended(c.graph, e.step.task), e.step.task.id, InitialState(e.step.task)),
                 durable := WithWorkload(c.durable, e.step.workloadId, e.step.workloadName),
                 readyAt := c.readyAt[e.step.task.id := e.now]), e.saved)
  {
    hide MemoryInv, GraphInv, AttemptsInv, Persist, Extended, SetState, InitialState;
    GraphIsSound(c);
    SubmissionAccepted(c.graph, e.step.task);
    hide Added;
  }

  /** A submission is taken in exactly when the id is new and not zero, the coordinator is not
      stopping and every dependency is known. Then the task is there with its edges, ready if
      it waits for nothing, its workload is on record, and nothing else changes. */
  lemma SubmitEnters(c: Core, e: Event)
    requires MemoryInv(c) && e.step.DoSubmit?
    ensures var task, c1 := e.step.task, Next(c, e);
            if !Welcome(c, task, e.step.stopping) then c1 == c else
            && c1.graph.tasks == c.graph.tasks[task.id := task]
            && c1.graph.states == c.graph.states[task.id := if task.dependencies == [] then READY else BLOCKED]
            && c1.graph.deps == c.graph.deps[task.id := set d | d in task.dependencies]
            && c1.readyAt == c.readyAt[task.id := e.now]
            && c1.durable.workloads == (if e.step.workloadId in c.durable.workloads then c.durable.workloads
                 else c.durable.workloads[e.step.workloadId := Workload(e.step.workloadId, e.step.workloadName, map[])])
            && c1 == c.(graph := c1.graph, readyAt := c1.readyAt, durable := c1.durable, disk := c1.disk)
            && Written(c, c1, e.saved)
  {
    var task := e.step.task;
    if Welcome(c, task, e.step.stopping) {
      SubmitShape(c, e);
      hide MemoryInv, Next, Welcome, Written, Persist;
      EnteredGraph(c.graph, task);
      hide Extended, SetState, InitialState;
      var c0 := c.(graph := SetState(Extended(c.graph, task), task.id, InitialState(task)),
                   durable := WithWorkload(c.durable, e.step.workloadId, e.step.workloadName),
                   readyAt := c.readyAt[task.id := e.now]);
      PersistWrites(c, c0, e.saved);
      KeepsWorkloads(c0, e.saved);
    } else {
      Unwelcome(c, e);
    }
  }

  lemma KeepsWorkloads(c: Core, saved: bool)
    ensures Persist(c, saved).durable.workloads == c.durable.workloads
  {
  }

  lemma EnteredGraph(g: Graph, task: ComputeTask)
    ensures var g1 := SetState(Extended(g, task), task.id, InitialState(task));
            && g1.tasks == g.tasks[task.id := task]
            && g1.states == g.states[task.id := if task.dependencies == [] then READY else BLOCKED]
            && g1.deps == g.deps[task.id := set d | d in task.dependencies]
  {
  }
}
