/**
 What a sweep leaves behind: nothing that it looks after is overdue any more.
 */
module CoordinatorSweeps {
  import opened Basics
  import opened Types
  import opened Paths
  import opened TaskGraphs
  import opened Reservations
  import opened CoordinatorCore
  import opened CoordinatorInvariants
  import opened CoordinatorRuns
  import opened CoordinatorTheorems
  import opened CoordinatorEffects
  import opened CoordinatorUpkeep
  import opened CoordinatorOutcomes
  import opened CoordinatorNodes
  import opened Coordinators

  // ----- what is settled -----

  /** A node that has been silent for longer than the timeout is offline and disconnected. */
  ghost predicate Heard(c: Core, n: Id, timeoutMs: int, now: Int64) {
    n in c.nodes && now > c.nodes[n].lastHeartbeatMs + timeoutMs ==> c.nodes[n].health == Offline && !c.nodes[n].connected
  }

  /** No dispatch has gone unanswered for more than five seconds. */
  ghost predicate Answered(c: Core, t: Id, now: Int64) {
    TaskStateOf(c, t) == DISPATCHING && t in c.dispatchAt ==> now <= c.dispatchAt[t] + 5000
  }

  /** No back-off has run out. */
  ghost predicate BackingOff(c: Core, t: Id, now: Int64) {
    TaskStateOf(c, t) == RETRY_PENDING && t in c.retryReadyAt ==> now < c.retryReadyAt[t]
  }

  /** No task that is not under way has missed its deadline. */
  ghost predicate InTime(c: Core, t: Id, now: Int64) {
    t in c.graph.tasks && c.graph.tasks[t].hasDeadline && TaskStateOf(c, t) in {READY, BLOCKED, RETRY_PENDING} ==>
      now < c.graph.tasks[t].deadlineMs
  }

  ghost predicate Settled(c: Core, k: Concern, id: Id, timeoutMs: int, now: Int64) {
    match k
    case Loss => Heard(c, id, timeoutMs, now)
    case Stale => Answered(c, id, now)
    case Backoff => BackingOff(c, id, now)
    case Deadline => InTime(c, id, now)
  }

  function Turn(k: Concern): nat {
    match k
    case Loss => 0
    case Stale => 1
    case Backoff => 2
    case Deadline => 3
  }

  /** An offline node is not connected. */
  ghost predicate Apart(c: Core) {
    forall n :: n in c.nodes && c.nodes[n].health == Offline ==> !c.nodes[n].connected
  }

  // ----- one step -----

  lemma LossSettles(c: Core, e: Event, id: Id, timeoutMs: int, now: Int64)
    requires MemoryInv(c) && Apart(c) && e.step.DoLoseNode?
    ensures Apart(Next(c, e))
    ensures id == e.step.n || Heard(c, id, timeoutMs, now) ==> Heard(Next(c, e), id, timeoutMs, now)
  {
    LossSays(c, e);
    hide MemoryInv, Next, Written, AtWork, LossHoldings, LeavesNode, StaysPut;
  }

  lemma SweepStepNodes(c: Core, e: Event, id: Id, timeoutMs: int, now: Int64)
    requires Apart(c) && (e.step.DoRequeue? || e.step.DoRetry? || e.step.DoExpire?)
    ensures Apart(Next(c, e)) && (Heard(c, id, timeoutMs, now) ==> Heard(Next(c, e), id, timeoutMs, now))
  {
    NodesUntouched(c, e);
    hide Next;
  }

  lemma RequeueSettles(c: Core, e: Event, id: Id)
    requires MemoryInv(c) && e.step.DoRequeue?
    ensures id == e.step.t || Answered(c, id, e.now) ==> Answered(Next(c, e), id, e.now)
  {
    RequeueIff(c, e);
    hide MemoryInv, Next, Written, Freed;
  }

  lemma RetrySettles(c: Core, e: Event, id: Id)
    requires MemoryInv(c) && e.step.DoRetry?
    ensures Answered(c, id, e.now) ==> Answered(Next(c, e), id, e.now)
    ensures id == e.step.t || BackingOff(c, id, e.now) ==> BackingOff(Next(c, e), id, e.now)
  {
    RetryIff(c, e);
    hide MemoryInv, Next, Written;
  }

  lemma ExpireSettles(c: Core, e: Event, id: Id)
    requires MemoryInv(c) && e.step.DoExpire?
    ensures Answered(c, id, e.now) ==> Answered(Next(c, e), id, e.now)
    ensures BackingOff(c, id, e.now) ==> BackingOff(Next(c, e), id, e.now)
    ensures id == e.step.t || InTime(c, id, e.now) ==> InTime(Next(c, e), id, e.now)
  {
    ExpireIff(c, e);
    hide MemoryInv, Next, Written, Freed;
  }

  /** The step of a concern settles its own id, and unsettles nothing of that concern or of one
      whose turn came before. */
  lemma StepSettles(c: Core, e: Event, k: Concern, x: Id, j: Concern, id: Id, timeoutMs: int)
    requires Inv(c) && Apart(c) && e.step == StepFor(k, x) && Turn(j) <= Turn(k)
    ensures Apart(Next(c, e))
    ensures (j == k && id == x) || Settled(c, j, id, timeoutMs, e.now) ==> Settled(Next(c, e), j, id, timeoutMs, e.now)
  {
    SoundMemory(c);
    hide Inv, MemoryInv, Next, Apart, Heard, Answered, BackingOff, InTime;
    match k {
      case Loss => LossSettles(c, e, id, timeoutMs, e.now);
      case Stale =>
        SweepStepNodes(c, e, id, timeoutMs, e.now);
        RequeueSettles(c, e, id);
      case Backoff =>
        SweepStepNodes(c, e, id, timeoutMs, e.now);
        RetrySettles(c, e, id);
      case Deadline =>
        SweepStepNodes(c, e, id, timeoutMs, e.now);
        ExpireSettles(c, e, id);
    }
  }

  // ----- a stretch -----

  lemma CoversRest(run: seq<Event>, ids: seq<Id>, k: Concern, now: Int64)
    requires Covers(run, ids, k, now) && run != []
    ensures ids != [] && run[0].step == StepFor(k, ids[0]) && run[0].now == now
    ensures Covers(run[1..], ids[1..], k, now)
  {
  }

  /** A stretch of the sweep settles all its ids, and unsettles nothing of its concern or of one
      before it. */
  lemma {:induction false} StretchSettles(c: Core, run: seq<Event>, ids: seq<Id>, k: Concern, j: Concern, id: Id,
                                          timeoutMs: int, now: Int64)
    requires Inv(c) && Apart(c) && Possible(c, run) && Covers(run, ids, k, now) && Turn(j) <= Turn(k)
    ensures Inv(After(c, run)) && Apart(After(c, run))
    ensures (j == k && id in ids) || Settled(c, j, id, timeoutMs, now) ==> Settled(After(c, run), j, id, timeoutMs, now)
    decreases |run|
  {
    if run == [] {
      assert ids == [];
    } else {
      CoversRest(run, ids, k, now);
      hide Inv, Next, Apart, Settled, Enabled, Covers, StepFor;
      NextInv(c, run[0]);
      StepSettles(c, run[0], k, ids[0], j, id, timeoutMs);
      StretchSettles(Next(c, run[0]), run[1..], ids[1..], k, j, id, timeoutMs, now);
      assert id in ids ==> id == ids[0] || id in ids[1..];
    }
  }

  // ----- the whole -----

  lemma StretchOf(c: Core, run: seq<Event>, c1: Core, ids: seq<Id>, k: Concern, j: Concern, id: Id, timeoutMs: int, now: Int64)
    requires Inv(c) && Apart(c) && Sweeps(c, run, c1) && Covers(run, ids, k, now) && Turn(j) <= Turn(k)
    ensures Inv(c1) && Apart(c1)
    ensures (j == k && id in ids) || Settled(c, j, id, timeoutMs, now) ==> Settled(c1, j, id, timeoutMs, now)
  {
    hide Inv, Apart, Settled, Covers, Keeps, Turn;
    StretchSettles(c, run, ids, k, j, id, timeoutMs, now);
  }

  /** What a stretch does not visit was settled already. */
  lemma UnvisitedIsSettled(c: Core, id: Id, timeoutMs: int, now: Int64)
    ensures id in Walk(OverdueNodes(c.nodes, timeoutMs, now)) || Heard(c, id, timeoutMs, now)
    ensures id in Walk(StaleTasks(c, now)) || Answered(c, id, now)
    ensures id in Walk(c.retryReadyAt.Keys) || BackingOff(c, id, now)
    ensures id in Walk(c.graph.tasks.Keys) || InTime(c, id, now)
  {
    hide Walk;
  }

  lemma NodesSettled(c: Core, p: SweepParts, timeoutMs: int, choose: Id -> Choice, now: Int64, id: Id)
    requires Inv(c) && Apart(c) && IsSweep(c, p, timeoutMs, choose, now)
    ensures Inv(p.c1) && Apart(p.c1) && Inv(p.c2) && Apart(p.c2) && Inv(p.c3) && Apart(p.c3)
    ensures Heard(p.c4, id, timeoutMs, now)
  {
    UnvisitedIsSettled(c, id, timeoutMs, now);
    hide Inv, Apart, Heard, Covers, Sweeps, IsRound, Walk, OverdueNodes, StaleTasks;
    StretchOf(c, p.lost, p.c1, Walk(OverdueNodes(c.nodes, timeoutMs, now)), Loss, Loss, id, timeoutMs, now);
    StretchOf(p.c1, p.stale, p.c2, Walk(StaleTasks(p.c1, now)), Stale, Loss, id, timeoutMs, now);
    StretchOf(p.c2, p.retried, p.c3, Walk(p.c2.retryReadyAt.Keys), Backoff, Loss, id, timeoutMs, now);
    StretchOf(p.c3, p.expired, p.c4, Walk(p.c3.graph.tasks.Keys), Deadline, Loss, id, timeoutMs, now);
  }

  lemma DispatchesSettled(c: Core, p: SweepParts, timeoutMs: int, choose: Id -> Choice, now: Int64, id: Id)
    requires Inv(c) && Apart(c) && IsSweep(c, p, timeoutMs, choose, now)
    ensures Answered(p.c4, id, now)
  {
    UnvisitedIsSettled(p.c1, id, timeoutMs, now);
    hide Inv, Apart, Heard, Answered, BackingOff, InTime, Covers, Sweeps, IsRound, Walk, OverdueNodes, StaleTasks;
    NodesSettled(c, p, timeoutMs, choose, now, id);
    StretchOf(p.c1, p.stale, p.c2, Walk(StaleTasks(p.c1, now)), Stale, Stale, id, timeoutMs, now);
    StretchOf(p.c2, p.retried, p.c3, Walk(p.c2.retryReadyAt.Keys), Backoff, Stale, id, timeoutMs, now);
    StretchOf(p.c3, p.expired, p.c4, Walk(p.c3.graph.tasks.Keys), Deadline, Stale, id, timeoutMs, now);
  }

  lemma RetriesSettled(c: Core, p: SweepParts, timeoutMs: int, choose: Id -> Choice, now: Int64, id: Id)
    requires Inv(c) && Apart(c) && IsSweep(c, p, timeoutMs, choose, now)
    ensures BackingOff(p.c4, id, now)
  {
    UnvisitedIsSettled(p.c2, id, timeoutMs, now);
    hide Inv, Apart, Heard, Answered, BackingOff, InTime, Covers, Sweeps, IsRound, Walk, OverdueNodes, StaleTasks;
    NodesSettled(c, p, timeoutMs, choose, now, id);
    StretchOf(p.c2, p.retried, p.c3, Walk(p.c2.retryReadyAt.Keys), Backoff, Backoff, id, timeoutMs, now);
    StretchOf(p.c3, p.expired, p.c4, Walk(p.c3.graph.tasks.Keys), Deadline, Backoff, id, timeoutMs, now);
  }

  lemma DeadlinesSettled(c: Core, p: SweepParts, timeoutMs: int, choose: Id -> Choice, now: Int64, id: Id)
    requires Inv(c) && Apart(c) && IsSweep(c, p, timeoutMs, choose, now)
    ensures InTime(p.c4, id, now)
  {
    UnvisitedIsSettled(p.c3, id, timeoutMs, now);
    hide Inv, Apart, Heard, Answered, BackingOff, InTime, Covers, Sweeps, IsRound, Walk, OverdueNodes, StaleTasks;
    NodesSettled(c, p, timeoutMs, choose, now, id);
    StretchOf(p.c3, p.expired, p.c4, Walk(p.c3.graph.tasks.Keys), Deadline, Deadline, id, timeoutMs, now);
  }

  /** When a sweep of a reachable state comes to placing, every silent node is offline, no
      dispatch has gone unanswered for too long, no back-off has run out, and no task that is not
      under way is past its deadline. */
  lemma SweepSettles(c: Core, p: SweepParts, timeoutMs: int, choose: Id -> Choice, now: Int64, id: Id)
    requires Reachable(c) && IsSweep(c, p, timeoutMs, choose, now)
    ensures Heard(p.c4, id, timeoutMs, now) && Answered(p.c4, id, now) && BackingOff(p.c4, id, now) && InTime(p.c4, id, now)
  {
    ReachablePlaced(c);
    assert Apart(c);
    hide Reachable, Inv, Apart, Placed, AllBacked, IsSweep;
    NodesSettled(c, p, timeoutMs, choose, now, id);
    DispatchesSettled(c, p, timeoutMs, choose, now, id);
    RetriesSettled(c, p, timeoutMs, choose, now, id);
    DeadlinesSettled(c, p, timeoutMs, choose, now, id);
  }
}
