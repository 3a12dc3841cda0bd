/**
 Where tasks run: every live reservation belongs to an attempt under way on its node, and
 none is on a node that was lost.
 */
module CoordinatorNodes {
  import opened Basics
  import opened Types
  import opened Paths
  import opened TaskGraphs
  import opened Reservations
  import opened CoordinatorCore
  import opened CoordinatorInvariants
  import opened CoordinatorSteps
  import opened CoordinatorRecovery
  import opened CoordinatorHistory
  import opened CoordinatorRuns
  import opened CoordinatorTheorems
  import opened CoordinatorEffects
  import opened CoordinatorUpkeep
  import opened CoordinatorOutcomes
  import Placement
  import Scheduling

  // ----- every live reservation has its attempt -----

  ghost predicate Live(m: Book, r: Id) {
    r in m && !m[r].released
  }

  /** The attempt is uncommitted and under way with reservation `r` on node `n`. */
  ghost predicate Works(x: Attempt, r: Id, n: Id) {
    x.reservationId == r && x.nodeId == n && !x.committed && UnderWay(x.state)
  }

  ghost predicate Backed(m: Book, attempts: map<Id, seq<Attempt>>, r: Id)
    requires r in m
  {
    exists p :: IsSpot(attempts, p) && p.task == m[r].taskId && Works(attempts[p.task][p.index], r, m[r].nodeId)
  }

  ghost predicate AllBacked(c: Core) {
    forall r :: Live(c.reservations, r) ==> Backed(c.reservations, c.attempts, r)
  }

  /** The reservation was there, live and the same. */
  ghost predicate WasLive(c: Core, c1: Core, r: Id) {
    Live(c.reservations, r) && r in c1.reservations && c1.reservations[r] == c.reservations[r]
  }

  lemma FreedWasLive(c: Core, c1: Core, t: Id, r: Id)
    requires Freed(c, c1, t) && Live(c1.reservations, r)
    ensures WasLive(c, c1, r) && c.reservations[r].taskId != t
  {
  }

  /** Only a started message keeps what the attempt's task holds. */
  lemma MessageHoldings(c: Core, e: Event, q: Spot, r: Id)
    requires MemoryInv(c) && Subject(e).Some? && Holds(c.attempts, q, Subject(e).value) && Live(Next(c, e).reservations, r)
    ensures WasLive(c, Next(c, e), r)
    ensures Next(c, e) == c || e.step.DoStarted? || c.reservations[r].taskId != q.task
  {
    hide MemoryInv, Next, OnlyAt, Freed, Written, Rest, Fails, Closed, Begun, Another, Delivers, Moved, Preempted, Timed,
      CommitTask, Acceptable, Over, Resolved;
    match e.step {
      case DoStarted(_, _, _) => StartedMarks(c, e, q);
      case DoComplete(_, v, _) =>
        CompletionDelivers(c, e, q);
        if !Acceptable(c, c.attempts[q.task][q.index], v) { CompletionRefused(c, e, q); }
      case DoFailed(_, _, _) => FailureDecides(c, e, q);
      case DoCancelled(_, _) => NodeCancelCloses(c, e, q);
    }
    if Next(c, e) != c && !e.step.DoStarted? {
      FreedWasLive(c, Next(c, e), q.task, r);
    }
  }

  lemma StartedWorks(c: Core, e: Event, q: Spot, r: Id, n: Id)
    requires MemoryInv(c) && e.step.DoStarted? && Holds(c.attempts, q, e.step.a)
    requires Works(c.attempts[q.task][q.index], r, n)
    ensures IsSpot(Next(c, e).attempts, q) && Works(Next(c, e).attempts[q.task][q.index], r, n)
  {
    hide MemoryInv, Next, Written, Rest, Moved;
    StartedMarks(c, e, q);
  }

  lemma MessageBacked(c: Core, e: Event, q: Spot, r: Id)
    requires MemoryInv(c) && AllBacked(c) && Subject(e).Some? && Holds(c.attempts, q, Subject(e).value)
    requires Live(Next(c, e).reservations, r)
    ensures Backed(Next(c, e).reservations, Next(c, e).attempts, r)
  {
    hide MemoryInv, Next;
    MessageHoldings(c, e, q, r);
    MessageChanges(c, e, q);
    var m := c.reservations;
    var p :| IsSpot(c.attempts, p) && p.task == m[r].taskId && Works(c.attempts[p.task][p.index], r, m[r].nodeId);
    if p == q && e.step.DoStarted? {
      StartedWorks(c, e, q, r, m[r].nodeId);
    }
    assert IsSpot(Next(c, e).attempts, p) && Works(Next(c, e).attempts[p.task][p.index], r, m[r].nodeId);
  }

  /** What an event other than a message about an attempt leaves live was live, but for the
      reservation of a task just sent out. */
  lemma OtherHoldings(c: Core, e: Event, r: Id)
    requires MemoryInv(c) && Subject(e).None? && !e.step.DoRestart? && !e.step.DoSchedule? && Live(Next(c, e).reservations, r)
    ensures WasLive(c, Next(c, e), r)
  {
    hide MemoryInv, Next, Written, Welcome;
    match e.step {
      case DoSubmit(_, _, _, _) => SubmitEnters(c, e);
      case DoCancel(_) => CancelHoldings(c, e, r);
      case DoRelease(_) => ReleaseSays(c, e);
      case DoNodeNews(_, _) => NewsTouchesNodes(c, e);
      case DoLoseNode(_) => LossKeepsOthers(c, e, r);
      case DoPersist => SaveTouchesDisk(c, e);
      case _ => SweepHoldings(c, e, r);
    }
  }

  lemma CancelHoldings(c: Core, e: Event, r: Id)
    requires MemoryInv(c) && e.step.DoCancel? && Live(Next(c, e).reservations, r)
    ensures WasLive(c, Next(c, e), r)
  {
    hide MemoryInv, Next, Written, Rest, AttemptsOf, Cancellable, Moved, Freed;
    CancelAsks(c, e);
    if Freed(c, Next(c, e), e.step.t) {
      FreedWasLive(c, Next(c, e), e.step.t, r);
    }
  }

  lemma SweepHoldings(c: Core, e: Event, r: Id)
    requires MemoryInv(c) && (e.step.DoRequeue? || e.step.DoRetry? || e.step.DoExpire?) && Live(Next(c, e).reservations, r)
    ensures WasLive(c, Next(c, e), r)
  {
    hide MemoryInv, Next, Written, Rest, Moved;
    match e.step {
      case DoRequeue(_) => RequeueIff(c, e);
      case DoRetry(_) => RetryIff(c, e);
      case DoExpire(_) => ExpireIff(c, e);
    }
  }

  lemma OfflineKeepsOthers(c: Core, c1: Core, n: Id, now: Int64, r: Id)
    requires n in c.nodes && c.graph.states.Keys == c.graph.tasks.Keys && GoesOffline(c, c1, n, now) && Live(c1.reservations, r)
    ensures WasLive(c, c1, r) && c.reservations[r].nodeId != n && !AtWork(c.attempts, c.reservations[r].taskId, n)
  {
    hide AtWork, LeavesNode, StaysPut;
  }

  lemma LossKeepsOthers(c: Core, e: Event, r: Id)
    requires MemoryInv(c) && e.step.DoLoseNode? && Live(Next(c, e).reservations, r)
    ensures WasLive(c, Next(c, e), r)
    ensures e.step.n in c.nodes && c.nodes[e.step.n].health != Offline ==>
              c.reservations[r].nodeId != e.step.n && !AtWork(c.attempts, c.reservations[r].taskId, e.step.n)
  {
    hide MemoryInv, Next, Written, AtWork, GoesOffline;
    LossSays(c, e);
    if e.step.n in c.nodes && c.nodes[e.step.n].health != Offline {
      OfflineKeepsOthers(c, Next(c, e), e.step.n, e.now, r);
    }
  }

  lemma StillBacked(c: Core, c1: Core, r: Id)
    requires WasLive(c, c1, r) && Backed(c.reservations, c.attempts, r) && Extends(c.attempts, c1.attempts)
    ensures Backed(c1.reservations, c1.attempts, r)
  {
    var m := c.reservations;
    var p :| IsSpot(c.attempts, p) && p.task == m[r].taskId && Works(c.attempts[p.task][p.index], r, m[r].nodeId);
    assert AttemptsOf(c.attempts, p.task) <= AttemptsOf(c1.attempts, p.task);
    assert IsSpot(c1.attempts, p) && Works(c1.attempts[p.task][p.index], r, m[r].nodeId);
  }

  /** A task sent out has a new reservation and the attempt that goes with it. */
  lemma SentBacked(c: Core, c1: Core, t: Id, ch: Choice, now: Int64)
    requires t in c.graph.tasks && ch.decision.chosenNode.Some? && ch.decision.chosenNode.value in c.nodes
    requires SentOut(c, c1, t, ch, now)
    ensures ch.reservation in c1.reservations && Backed(c1.reservations, c1.attempts, ch.reservation)
    ensures c1.reservations[ch.reservation].nodeId == c.nodes[ch.decision.chosenNode.value].id
    ensures forall r :: r != ch.reservation && Live(c1.reservations, r) ==> WasLive(c, c1, r)
  {
    var p := Spot(t, |AttemptsOf(c.attempts, t)|);
    assert IsSpot(c1.attempts, p) && Works(c1.attempts[t][p.index], ch.reservation, c1.reservations[ch.reservation].nodeId);
    hide AttemptsOf;
  }

  lemma SentKeepsBacked(c: Core, c1: Core, t: Id, ch: Choice, now: Int64, r: Id)
    requires t in c.graph.tasks && ch.decision.chosenNode.Some? && ch.decision.chosenNode.value in c.nodes
    requires SentOut(c, c1, t, ch, now) && AllBacked(c) && Extends(c.attempts, c1.attempts) && Live(c1.reservations, r)
    ensures Backed(c1.reservations, c1.attempts, r)
  {
    hide SentOut, Backed, Extends;
    SentBacked(c, c1, t, ch, now);
    if r != ch.reservation {
      StillBacked(c, c1, r);
    }
  }

  lemma PlacingBacked(c: Core, e: Event, r: Id)
    requires MemoryInv(c) && AllBacked(c) && e.step.DoSchedule? && Live(Next(c, e).reservations, r)
    ensures Backed(Next(c, e).reservations, Next(c, e).attempts, r)
  {
    hide MemoryInv, Next, SentOut, Sends, Extends, Backed, Spares;
    PlacingExtends(c, e);
    PlacingFrame(c, e);
    if Sends(c, e) {
      SendsFacts(c, e);
      SentKeepsBacked(c, Next(c, e), e.step.t, e.step.ch, e.now, r);
    } else {
      StillBacked(c, Next(c, e), r);
    }
  }

  lemma SendsFacts(c: Core, e: Event)
    requires Sends(c, e)
    ensures e.step.DoSchedule? && e.step.t in c.graph.tasks && e.step.ch.decision.chosenNode.Some?
    ensures Up(c.nodes, e.step.ch.decision.chosenNode.value)
  {
    hide TimeIsUp;
  }

  lemma StepBacked(c: Core, e: Event)
    requires MemoryInv(c) && AllBacked(c) && !e.step.DoRestart?
    ensures AllBacked(Next(c, e))
  {
    hide MemoryInv, Next, Backed, Extends, Known;
    forall r | Live(Next(c, e).reservations, r)
      ensures Backed(Next(c, e).reservations, Next(c, e).attempts, r)
    {
      if Subject(e).Some? {
        if Known(c.attempts, Subject(e).value) {
          MessageBacked(c, e, Find(c.attempts, Subject(e).value), r);
        } else {
          UnknownIsIgnored(c, e, Subject(e).value);
        }
      } else if e.step.DoSchedule? {
        PlacingBacked(c, e, r);
      } else {
        OtherHoldings(c, e, r);
        OthersExtend(c, e);
        StillBacked(c, Next(c, e), r);
      }
    }
  }

  lemma NextBacked(c: Core, e: Event)
    requires Inv(c) && Enabled(c, e) && AllBacked(c)
    ensures AllBacked(Next(c, e))
  {
    if e.step.DoRestart? {
      RestartResumes(c, e);
      hide Inv, Next, DepsOf;
    } else {
      StepBacked(c, e);
    }
  }

  // ----- nothing is held on a lost node -----

  /** An offline node is not connected, and a live reservation is on a known node that is not
      offline. */
  ghost predicate Placed(c: Core) {
    && (forall n :: n in c.nodes && c.nodes[n].health == Offline ==> !c.nodes[n].connected)
    && (forall r :: Live(c.reservations, r) ==> Up(c.nodes, c.reservations[r].nodeId))
  }

  ghost predicate Up(nodes: map<Id, NodeRecord>, n: Id) {
    n in nodes && nodes[n].health != Offline
  }

  lemma NodesUntouched(c: Core, e: Event)
    requires !e.step.DoNodeNews? && !e.step.DoLoseNode? && !e.step.DoRestart?
    ensures Next(c, e).nodes == c.nodes
  {
    hide MessageStep, Requeue, Retry, Expire, Schedule, Persist;
    match e.step {
      case DoRequeue(t) => Scheduling.SweepNodes(c, t, e.now, e.saved);
      case DoRetry(t) => Scheduling.SweepNodes(c, t, e.now, e.saved);
      case DoExpire(t) => Scheduling.SweepNodes(c, t, e.now, e.saved);
      case DoSchedule(t, ch) => Scheduling.ScheduleNodes(c, t, ch, e.now, e.saved);
      case DoPersist => Scheduling.PersistNodes(c, e.saved);
      case _ => Scheduling.MessageNodes(c, e);
    }
  }

  /** News of a node never takes it offline, and never connects one that is. */
  lemma NewsKeepsUp(c: Core, e: Event)
    requires e.step.DoNodeNews? && Placed(c)
    ensures Placed(Next(c, e))
  {
  }

  lemma StillPlaced(c: Core, c1: Core, n: Id)
    requires Placed(c)
    requires c1.nodes == if Up(c.nodes, n) then c.nodes[n := c.nodes[n].(health := Offline, connected := false)] else c.nodes
    requires forall r :: Live(c1.reservations, r) ==>
               WasLive(c, c1, r) && (Up(c.nodes, n) ==> c1.reservations[r].nodeId != n)
    ensures Placed(c1)
  {
  }

  lemma LossKeepsPlaced(c: Core, e: Event)
    requires MemoryInv(c) && e.step.DoLoseNode? && Placed(c)
    ensures Placed(Next(c, e))
  {
    hide MemoryInv, Next, Placed, AtWork;
    var c1, n := Next(c, e), e.step.n;
    forall r | Live(c1.reservations, r)
      ensures WasLive(c, c1, r) && (Up(c.nodes, n) ==> c1.reservations[r].nodeId != n)
    {
      LossKeepsOthers(c, e, r);
    }
    LossNodes(c, e);
    StillPlaced(c, c1, n);
  }

  lemma LossNodes(c: Core, e: Event)
    requires MemoryInv(c) && e.step.DoLoseNode?
    ensures Next(c, e).nodes == if Up(c.nodes, e.step.n) then c.nodes[e.step.n := c.nodes[e.step.n].(health := Offline, connected := false)]
                                else c.nodes
  {
    hide MemoryInv, Next, Written, AtWork, LossHoldings, LeavesNode, StaysPut;
    LossSays(c, e);
  }

  lemma SentPlaced(c: Core, c1: Core, t: Id, ch: Choice, now: Int64)
    requires t in c.graph.tasks && ch.decision.chosenNode.Some? && Up(c.nodes, ch.decision.chosenNode.value)
    requires SentOut(c, c1, t, ch, now) && Placed(c) && Placement.Keyed(c.nodes) && c1.nodes == c.nodes
    ensures Placed(c1)
  {
    hide SentOut, Backed;
    SentBacked(c, c1, t, ch, now);
    forall r | Live(c1.reservations, r) ensures Up(c1.nodes, c1.reservations[r].nodeId) {
      assert r != ch.reservation ==> WasLive(c, c1, r);
    }
  }

  lemma PlacingKeepsPlaced(c: Core, e: Event)
    requires MemoryInv(c) && e.step.DoSchedule? && Placed(c) && Placement.Keyed(c.nodes)
    ensures Placed(Next(c, e))
  {
    hide MemoryInv, Next, SentOut, Sends, Spares, Placed;
    NodesUntouched(c, e);
    PlacingFrame(c, e);
    if Sends(c, e) {
      SendsFacts(c, e);
      SentPlaced(c, Next(c, e), e.step.t, e.step.ch, e.now);
    } else {
      SameHeldPlaced(c, Next(c, e));
    }
  }

  lemma SameHeldPlaced(c: Core, c1: Core)
    requires Placed(c) && c1.reservations == c.reservations && c1.nodes == c.nodes
    ensures Placed(c1)
  {
  }

  lemma OthersKeepPlaced(c: Core, e: Event)
    requires MemoryInv(c) && Placed(c)
    requires !e.step.DoNodeNews? && !e.step.DoLoseNode? && !e.step.DoRestart? && !e.step.DoSchedule?
    ensures Placed(Next(c, e))
  {
    NodesUntouched(c, e);
    hide MemoryInv, Next, Known;
    var c1 := Next(c, e);
    forall r | Live(c1.reservations, r) ensures WasLive(c, c1, r) {
      if Subject(e).None? {
        OtherHoldings(c, e, r);
      } else if Known(c.attempts, Subject(e).value) {
        MessageHoldings(c, e, Find(c.attempts, Subject(e).value), r);
      } else {
        UnknownIsIgnored(c, e, Subject(e).value);
      }
    }
  }

  lemma NextPlaced(c: Core, e: Event)
    requires Inv(c) && Enabled(c, e) && Placed(c) && Placement.Keyed(c.nodes)
    ensures Placed(Next(c, e))
  {
    if e.step.DoRestart? {
      RestartResumes(c, e);
      hide Inv, Next, DepsOf;
    } else {
      SoundMemory(c);
      hide Inv, Next, Placed, Enabled;
      match e.step {
        case DoNodeNews(_, _) => NewsKeepsUp(c, e);
        case DoLoseNode(_) => LossKeepsPlaced(c, e);
        case DoSchedule(_, _) => PlacingKeepsPlaced(c, e);
        case _ => OthersKeepPlaced(c, e);
      }
    }
  }

  lemma {:induction false} RunPlaced(c: Core, run: seq<Event>)
    requires Inv(c) && Possible(c, run) && AllBacked(c) && Placed(c) && Placement.Keyed(c.nodes)
    ensures AllBacked(After(c, run)) && Placed(After(c, run))
    decreases |run|
  {
    hide Inv, Next, Enabled, AllBacked, Placed, Placement.Keyed;
    if run != [] {
      NextInv(c, run[0]);
      NextBacked(c, run[0]);
      NextPlaced(c, run[0]);
      Scheduling.NextKeyed(c, run[0]);
      RunPlaced(Next(c, run[0]), run[1..]);
    }
  }

  /** In every reachable state each live reservation belongs to an uncommitted attempt that is
      under way on the same node, and that node has not been lost. */
  lemma ReachablePlaced(c: Core)
    requires Reachable(c)
    ensures Inv(c) && AllBacked(c) && Placed(c)
  {
    ReachableInv(c);
    var c0, run :| Initial(c0) && Possible(c0, run) && After(c0, run) == c;
    InitialInv(c0);
    InitialEmpty(c0);
    hide Inv;
    RunPlaced(c0, run);
  }

  lemma InitialEmpty(c: Core)
    requires Initial(c)
    ensures AllBacked(c) && Placed(c) && Placement.Keyed(c.nodes)
  {
    EmptyDiskInv();
    var now, saved :| Start(EMPTY_DISK, now, saved) == Ok(c);
    StartRecovers(EMPTY_DISK, now, saved);
    hide Start, DurableInv, DepsOf, Inv;
  }

  lemma OfflineLeaves(c: Core, c1: Core, n: Id, now: Int64, t: Id)
    requires n in c.nodes && c.graph.states.Keys == c.graph.tasks.Keys && GoesOffline(c, c1, n, now)
    requires Executing(TaskStateOf(c1, t))
    ensures !AtWork(c1.attempts, t, n)
  {
    hide AtWork, LossHoldings, SameTimer;
  }

  /** When a node is lost, nothing is held on it any more, and no task goes on executing of
      which an uncommitted attempt was under way there. What still holds a reservation runs on
      another node, which has not been lost. */
  lemma LossEmptiesNode(c: Core, e: Event, t: Id)
    requires Reachable(c) && e.step.DoLoseNode? && Up(c.nodes, e.step.n)
    ensures var c1, n := Next(c, e), e.step.n;
            && (forall r :: Live(c1.reservations, r) ==>
                  Up(c1.nodes, c1.reservations[r].nodeId) && c1.reservations[r].nodeId != n)
            && (Executing(TaskStateOf(c1, t)) ==> !AtWork(c1.attempts, t, n))
  {
    var c1, n := Next(c, e), e.step.n;
    ReachablePlaced(c);
    SoundMemory(c);
    hide Inv, MemoryInv, Reachable, Next, Written, AtWork, AllBacked, GoesOffline;
    LossKeepsPlaced(c, e);
    forall r | Live(c1.reservations, r) ensures c1.reservations[r].nodeId != n {
      LossKeepsOthers(c, e, r);
    }
    LossSays(c, e);
    if Executing(TaskStateOf(c1, t)) {
      OfflineLeaves(c, c1, n, e.now, t);
    }
  }
}
