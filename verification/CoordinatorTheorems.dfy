/**
 What holds in every run of the coordinator: soundness, commit conservation, finality,
 epoch fencing, and which tasks never leave Blocked.
 */
module CoordinatorTheorems {
  import opened Basics
  import opened Types
  import opened Paths
  import opened TaskGraphs
  import opened Reservations
  import opened CoordinatorCore
  import opened CoordinatorInvariants
  import opened CoordinatorSteps
  import opened CoordinatorRecovery
  import opened CoordinatorHistory
  import opened CoordinatorRuns
  import Lifecycle

  // ----- reachable states -----

  /** A coordinator just started on an empty store. */
  ghost predicate Initial(c: Core) {
    exists now, saved :: Start(EMPTY_DISK, now, saved) == Ok(c)
  }

  ghost predicate Reachable(c: Core) {
    exists c0, run :: Initial(c0) && Possible(c0, run) && After(c0, run) == c
  }

  lemma EmptyDiskInv()
    ensures DurableInv(EMPTY_DISK)
  {
    forall v ensures !OnCycle(DepsOf(EMPTY_DISK.tasks), v) {
      if OnCycle(DepsOf(EMPTY_DISK.tasks), v) {
        var p :| IsCycle(DepsOf(EMPTY_DISK.tasks), p, v);
        FirstStep(DepsOf(EMPTY_DISK.tasks), p, v, v);
      }
    }
  }

  lemma InitialInv(c: Core)
    requires Initial(c)
    ensures Inv(c) && c.attempts == map[] && c.graph.tasks == map[] && c.disk.attempts == map[]
  {
    EmptyDiskInv();
    var now, saved :| Start(EMPTY_DISK, now, saved) == Ok(c);
    StartRecovers(EMPTY_DISK, now, saved);
    hide DurableInv, Sound, Start;
    RestartThrough(c.(disk := EMPTY_DISK), now, saved);
  }

  lemma ReachableInv(c: Core)
    requires Reachable(c)
    ensures Inv(c)
  {
    var c0, run :| Initial(c0) && Possible(c0, run) && After(c0, run) == c;
    InitialInv(c0);
    hide Inv;
    RunInv(c0, run);
  }

  // ----- reservations and dependencies -----

  /** In every reachable state a task has at most one live reservation, the one recorded
      for it, and only a dispatching or running task has one. */
  lemma ReservationOwnership(c: Core, r: Id, s: Id)
    requires Reachable(c)
    requires r in c.reservations && !c.reservations[r].released
    ensures var t := c.reservations[r].taskId;
            && t in c.taskReservation && c.taskReservation[t] == r
            && (TaskStateOf(c, t) == DISPATCHING || TaskStateOf(c, t) == RUNNING)
            && (s in c.reservations && !c.reservations[s].released && c.reservations[s].taskId == t ==> s == r)
  {
    hide GraphInv, AttemptsInv, DiskInv;
    ReachableInv(c);
  }

  lemma {:induction false} AncestorsSucceeded(g: Graph, t: Id, p: seq<Id>, u: Id)
    requires DepSafe(g.deps, g.states) && t in g.states && !Waiting(g.states[t])
    requires PathBetween(g.deps, p, t, u) && |p| >= 2
    ensures u in g.states && g.states[u] == SUCCEEDED
    decreases |p|
  {
    FirstStep(g.deps, p, t, u);
    if |p| > 2 {
      AncestorsSucceeded(g, p[1], p[1..], u);
    }
  }

  /** In every reachable state, once a task has left Submitted and Blocked other than by
      cancellation or expiry, everything it transitively depends on has succeeded. */
  lemma DependencySafety(c: Core, t: Id, u: Id)
    requires Reachable(c)
    requires t in c.graph.tasks && TaskStateOf(c, t) !in {SUBMITTED, BLOCKED, CANCELLED, EXPIRED}
    requires Reaches(c.graph.deps, t, u) && u != t
    ensures TaskStateOf(c, u) == SUCCEEDED
  {
    hide Inverse, Complete, Acyclic, AttemptsInv, DiskInv, Owned, BookInv;
    ReachableInv(c);
    var p :| PathBetween(c.graph.deps, p, t, u);
    AncestorsSucceeded(c.graph, t, p, u);
  }

  // ----- write-through -----

  lemma {:induction false} RunSynced(c: Core, run: seq<Event>)
    requires Inv(c) && Possible(c, run) && AllSaved(run) && Synced(c)
    ensures Synced(After(c, run))
    decreases |run|
  {
    hide Inv, Next, Synced, Enabled;
    if run != [] {
      NextInv(c, run[0]);
      NextThrough(c, run[0]);
      RunSynced(Next(c, run[0]), run[1..]);
    }
  }

  // ----- restarts -----

  lemma RestartResumes(c: Core, e: Event)
    requires Inv(c) && Enabled(c, e) && e.step.DoRestart?
    ensures Resumes(Next(c, e), c.disk) && Rearmed(Next(c, e), c.disk, e.now) && Epoch(Next(c, e)) == c.disk.epoch + 1
    ensures e.saved ==> Synced(Next(c, e))
  {
    hide MemoryInv, DurableInv, Start, Resumes, Rearmed, Synced;
    StartRecovers(c.disk, e.now, e.saved);
  }

  /** A restart raises the epoch exactly when the disk holds the current one. */
  lemma EpochRisesIff(c: Core, e: Event)
    requires Inv(c) && Enabled(c, e) && e.step.DoRestart?
    ensures Epoch(Next(c, e)) > Epoch(c) <==> c.disk.epoch == Epoch(c)
    ensures c.disk.epoch < Epoch(c) ==> Epoch(Next(c, e)) <= Epoch(c)
  {
    hide MemoryInv, DurableInv, Next, Resumes;
    RestartResumes(c, e);
  }

  /** The failing case: a start whose save is lost is followed by a start under the same
      epoch. */
  lemma LostSaveReusesEpoch(d: DurableState, now: Int64, later: Event)
    requires DurableInv(d) && d.epoch + 1 < TWO_64 && later.step.DoRestart?
    ensures Start(d, now, false).Ok?
    ensures Enabled(Start(d, now, false).value, later)
    ensures Epoch(Next(Start(d, now, false).value, later)) == Epoch(Start(d, now, false).value)
  {
    StartRecovers(d, now, false);
    DurableIsGood(d);
    var g := RebuildFromDisk(d);
    StartShape(g, d, now, false);
    var c := Start(d, now, false).value;
    assert c.disk == d;
    hide Start, DurableInv, Sound;
    RestartResumes(c, later);
  }

  function Restarts(run: seq<Event>): nat
    decreases |run|
  {
    if run == [] then 0 else (if run[0].step.DoRestart? then 1 else 0) + Restarts(run[1..])
  }

  lemma NextEpoch(c: Core, e: Event)
    requires Inv(c) && Enabled(c, e)
    ensures !e.step.DoRestart? ==> Epoch(Next(c, e)) == Epoch(c)
    ensures e.step.DoRestart? ==> Epoch(Next(c, e)) == c.disk.epoch + 1
  {
    if e.step.DoRestart? {
      RestartResumes(c, e);
    } else {
      hide Next, Carries, Evolves, CommitStates, CommitAttempts, Sound, DurableInv;
      NextHistory(c, e);
    }
  }

  /** When every save succeeds, the epoch counts the restarts. */
  lemma {:induction false} EpochCountsRestarts(c: Core, run: seq<Event>)
    requires Inv(c) && Possible(c, run) && AllSaved(run) && Synced(c)
    ensures Epoch(After(c, run)) == Epoch(c) + Restarts(run)
    decreases |run|
  {
    if run != [] {
      NextEpoch(c, run[0]);
      assert c.disk.epoch == Epoch(c);
      hide Inv, Next, Synced, Epoch, Enabled;
      NextInv(c, run[0]);
      NextThrough(c, run[0]);
      EpochCountsRestarts(Next(c, run[0]), run[1..]);
    }
  }

  // ----- commit conservation -----

  lemma {:induction false} CommittedOnlyTwice(list: seq<Attempt>)
    ensures CommittedOnly(CommittedOnly(list)) == CommittedOnly(list)
    decreases |list|
  {
    if list != [] {
      CommittedOnlyTwice(list[1..]);
      var tail := CommittedOnly(list[1..]);
      if list[0].committed {
        assert CommittedOnly(list)[1..] == tail;
      } else {
        assert CommittedOnly(list) == tail;
      }
    }
  }

  lemma SavedCount(m: map<Id, seq<Attempt>>, t: Id)
    ensures CommitCount(CommittedAttempts(m), t) == CommitCount(m, t)
  {
    if t in m {
      CommittedOnlyTwice(m[t]);
    }
  }

  /** How many commits a task has taken while Dispatching: in the history memory holds, and
      in the history the disk holds. */
  datatype Tally = Tally(memory: nat, disk: nat)

  ghost function DispatchingCommit(c: Core, e: Event, t: Id): nat {
    One(CommitTask(c, e) == Some(t) && TaskStateOf(c, t) == DISPATCHING)
  }

  ghost function TallyNext(c: Core, e: Event, t: Id, k: Tally): Tally {
    var m := if e.step.DoRestart? then k.disk else k.memory + DispatchingCommit(c, e, t);
    Tally(m, if Synced(Next(c, e)) then m else k.disk)
  }

  ghost function TallyAfter(c: Core, run: seq<Event>, t: Id, k: Tally): Tally
    decreases |run|
  {
    if run == [] then k else TallyAfter(Next(c, run[0]), run[1..], t, TallyNext(c, run[0], t, k))
  }

  predicate SucceededIn(states: map<Id, TaskState>, t: Id) {
    t in states && states[t] == SUCCEEDED
  }

  ghost predicate InMemory(c: Core, t: Id, k: nat) {
    CommitCount(c.attempts, t) == k + One(SucceededIn(c.graph.states, t))
  }

  ghost predicate OnDisk(c: Core, t: Id, k: nat) {
    CommitCount(c.disk.attempts, t) == k + One(SucceededIn(c.disk.taskStates, t))
  }

  lemma StepConserves(c: Core, e: Event, t: Id, k: nat)
    requires MemoryInv(c) && !e.step.DoRestart? && InMemory(c, t, k)
    ensures InMemory(Next(c, e), t, k + DispatchingCommit(c, e, t))
  {
    hide Next, MemoryInv, CommitTask, CommitCount, Carries, Evolves, CommitStates, CommitAttempts;
    NextHistory(c, e);
    if CommitTask(c, e).Some? {
      CommitCounts(c.attempts, Next(c, e).attempts, CommitTask(c, e).value, Epoch(c), t);
      CommitSucceeds(c.graph, Next(c, e).graph, CommitTask(c, e).value, t);
    } else {
      CarriesCounts(c.attempts, Next(c, e).attempts, Epoch(c), t);
      EvolvesSucceeds(c.graph, Next(c, e).graph, t);
    }
  }

  lemma CarriesCounts(m: map<Id, seq<Attempt>>, m1: map<Id, seq<Attempt>>, epoch: U64, t: Id)
    requires Carries(m, m1, epoch)
    ensures CommitCount(m1, t) == CommitCount(m, t)
  {
    hide CommitCount;
  }

  lemma CommitCounts(m: map<Id, seq<Attempt>>, m1: map<Id, seq<Attempt>>, u: Id, epoch: U64, t: Id)
    requires CommitAttempts(m, m1, u, epoch)
    ensures CommitCount(m1, t) == CommitCount(m, t) + One(t == u)
  {
    hide CommitCount;
  }

  lemma EvolvesSucceeds(g: Graph, g1: Graph, t: Id)
    requires Evolves(g, g1)
    ensures SucceededIn(g1.states, t) <==> SucceededIn(g.states, t)
    ensures t in g.states && IsFinal(g.states[t]) ==> t in g1.states && g1.states[t] == g.states[t]
  {
  }

  lemma CommitSucceeds(g: Graph, g1: Graph, u: Id, t: Id)
    requires CommitStates(g.deps, g.states, g1.states, u)
    ensures u in g.states && (g.states[u] == RUNNING || g.states[u] == DISPATCHING)
    ensures SucceededIn(g1.states, t) <==> SucceededIn(g.states, t) || (t == u && g.states[u] == RUNNING)
    ensures t in g.states && IsFinal(g.states[t]) ==> t in g1.states && g1.states[t] == g.states[t]
  {
  }

  lemma RestartConserves(c: Core, e: Event, t: Id, k: nat)
    requires Inv(c) && Enabled(c, e) && e.step.DoRestart? && OnDisk(c, t, k)
    ensures InMemory(Next(c, e), t, k)
  {
    hide Next, Inv, DepsOf;
    RestartResumes(c, e);
  }

  lemma SyncedConserves(c: Core, t: Id, k: nat)
    requires Synced(c) && InMemory(c, t, k)
    ensures OnDisk(c, t, k)
  {
    SavedCount(c.attempts, t);
  }

  lemma NextConserves(c: Core, e: Event, t: Id, k: Tally)
    requires Inv(c) && Enabled(c, e) && InMemory(c, t, k.memory) && OnDisk(c, t, k.disk)
    ensures var k1 := TallyNext(c, e, t, k);
            InMemory(Next(c, e), t, k1.memory) && OnDisk(Next(c, e), t, k1.disk)
  {
    hide Next, MemoryInv, DurableInv, InMemory, Synced, Enabled, DispatchingCommit;
    NextThrough(c, e);
    if e.step.DoRestart? {
      RestartConserves(c, e, t, k.disk);
    } else {
      StepConserves(c, e, t, k.memory);
    }
    if Synced(Next(c, e)) {
      SyncedConserves(Next(c, e), t, TallyNext(c, e, t, k).memory);
    }
  }

  /** Commit conservation, with saves that may fail and restarts that go back to the last
      save: a task's committed attempts are one for each commit it took in Dispatching and
      one more exactly when it has succeeded. */
  lemma {:induction false} CommitsAreConserved(c: Core, run: seq<Event>, t: Id, k: Tally)
    requires Inv(c) && Possible(c, run) && InMemory(c, t, k.memory) && OnDisk(c, t, k.disk)
    ensures var k1 := TallyAfter(c, run, t, k);
            InMemory(After(c, run), t, k1.memory) && OnDisk(After(c, run), t, k1.disk)
    decreases |run|
  {
    hide Inv, Next, InMemory, OnDisk, TallyNext, Enabled;
    if run != [] {
      NextInv(c, run[0]);
      NextConserves(c, run[0], t, k);
      CommitsAreConserved(Next(c, run[0]), run[1..], t, TallyNext(c, run[0], t, k));
    }
  }

  /** The commits of `t` taken in Dispatching during a run. */
  ghost function DispatchingCommits(c: Core, run: seq<Event>, t: Id): nat
    decreases |run|
  {
    if run == [] then 0 else DispatchingCommit(c, run[0], t) + DispatchingCommits(Next(c, run[0]), run[1..], t)
  }

  lemma TallyNextCounts(c: Core, e: Event, t: Id, k: nat)
    requires Synced(Next(c, e))
    ensures var k1 := k + DispatchingCommit(c, e, t);
            TallyNext(c, e, t, Tally(k, k)) == Tally(k1, k1)
  {
    assert e.step.DoRestart? ==> DispatchingCommit(c, e, t) == 0;
    hide Next, Synced, DispatchingCommit;
  }

  lemma {:induction false} TallyCounts(c: Core, run: seq<Event>, t: Id, k: nat)
    requires Inv(c) && Possible(c, run) && AllSaved(run) && Synced(c)
    ensures TallyAfter(c, run, t, Tally(k, k)).memory == k + DispatchingCommits(c, run, t)
    decreases |run|
  {
    hide Inv, Next, Synced, DispatchingCommit, TallyNext, Enabled;
    if run != [] {
      NextInv(c, run[0]);
      NextThrough(c, run[0]);
      TallyNextCounts(c, run[0], t, k);
      TallyCounts(Next(c, run[0]), run[1..], t, k + DispatchingCommit(c, run[0], t));
    }
  }

  /** With every save successful: committed attempts are the commits taken in Dispatching
      plus one if the task has succeeded; so in a run without such commits a task has
      succeeded exactly when it has one committed attempt, and has none otherwise. */
  lemma CommitConservation(c: Core, run: seq<Event>, t: Id)
    requires Initial(c) && Synced(c) && Possible(c, run) && AllSaved(run)
    ensures var c1 := After(c, run);
            && CommitCount(c1.attempts, t) == DispatchingCommits(c, run, t) + One(SucceededIn(c1.graph.states, t))
            && (DispatchingCommits(c, run, t) == 0 ==>
                  && (SucceededIn(c1.graph.states, t) <==> CommitCount(c1.attempts, t) == 1)
                  && (!SucceededIn(c1.graph.states, t) <==> CommitCount(c1.attempts, t) == 0))
  {
    InitialInv(c);
    GraphIsSound(c);
    assert InMemory(c, t, 0) && OnDisk(c, t, 0) by {
      assert WellFormed(c.graph);
      hide Sound, DurableInv, Inverse, Complete, Acyclic;
    }
    hide Inv, Synced, Initial;
    CommitsAreConserved(c, run, t, Tally(0, 0));
    TallyCounts(c, run, t, 0);
  }

  lemma CommitsOwnTask(c: Core, e: Event)
    requires MemoryInv(c) && CommitTask(c, e).Some?
    ensures IsSpot(c.attempts, Find(c.attempts, e.step.a))
    ensures c.attempts[CommitTask(c, e).value][Find(c.attempts, e.step.a).index].taskId == CommitTask(c, e).value
  {
    var p := Find(c.attempts, e.step.a);
    assert AttemptOk(c.attempts[p.task][p.index], p.task, Epoch(c));
  }

  /** What a commit does besides: the task gives up its reservation. */
  lemma CommitFrame(c: Core, e: Event)
    requires MemoryInv(c) && CommitTask(c, e).Some?
    ensures var c1, t := Next(c, e), CommitTask(c, e).value;
            && c1.dispatchAt == c.dispatchAt && c1.nodes == c.nodes
            && c1.cancelRequested == c.cancelRequested - {t}
            && c1.taskReservation == c.taskReservation - {t}
            && c1.reservations.Keys == c.reservations.Keys
  {
    hide MemoryInv, CompleteAt, Known, CompletionValid;
    CommitsOwnTask(c, e);
    CompleteFrame(c, Find(c.attempts, e.step.a), e.step.reservation, e.step.out, e.now, e.saved);
  }

  lemma CompleteFrame(c: Core, p: Spot, reservation: Id, out: Output, now: Int64, saved: bool)
    requires IsSpot(c.attempts, p) && !c.attempts[p.task][p.index].committed
    requires c.attempts[p.task][p.index].taskId !in c.cancelRequested
    requires CompletionValid(c, c.attempts[p.task][p.index], reservation)
    ensures var c1, t := CompleteAt(c, p, reservation, out, now, saved), c.attempts[p.task][p.index].taskId;
            && c1.dispatchAt == c.dispatchAt && c1.nodes == c.nodes
            && c1.cancelRequested == c.cancelRequested - {t}
            && c1.taskReservation == c.taskReservation - {t}
            && c1.reservations.Keys == c.reservations.Keys
  {
    hide Persist, CommittedAttempt, SetState, MakeReady, Unblocked, CompletionValid;
    var at := c.attempts[p.task][p.index];
    var c1 := c.(attempts := Put(c.attempts, p, CommittedAttempt(at, out, now)));
    var c2 := ReleaseFor(SetTask(c1, at.taskId, SUCCEEDED), at.taskId);
    PersistRest(Unblock(c2.(cancelRequested := c2.cancelRequested - {at.taskId}), at.taskId, now), saved);
  }

  lemma PersistRest(c: Core, saved: bool)
    ensures var c1 := Persist(c, saved);
            && c1.dispatchAt == c.dispatchAt && c1.nodes == c.nodes && c1.cancelRequested == c.cancelRequested
            && c1.taskReservation == c.taskReservation && c1.reservations == c.reservations
  {
    hide Snapshot;
  }

  /** In every state a task without a recorded reservation holds none. */
  lemma UnrecordedIsHoldless(c: Core, t: Id)
    requires MemoryInv(c) && t !in c.taskReservation
    ensures Holdless(c.reservations, t)
  {
  }

  /** A commit taken in Dispatching leaves the task in Dispatching without a reservation,
      and the dispatch timeout then makes it ready to run again. */
  lemma DispatchingCommitRunsAgain(c: Core, e: Event, later: Int64, saved: bool)
    requires Inv(c) && CommitTask(c, e).Some?
    requires var t := CommitTask(c, e).value;
             TaskStateOf(c, t) == DISPATCHING && t in c.dispatchAt && later - c.dispatchAt[t] > DISPATCH_TIMEOUT_MS
    ensures var t := CommitTask(c, e).value;
            && TaskStateOf(Next(c, e), t) == DISPATCHING && Holdless(Next(c, e).reservations, t)
            && TaskStateOf(Requeue(Next(c, e), t, later, saved), t) == READY
            && CommitCount(Requeue(Next(c, e), t, later, saved).attempts, t) == CommitCount(c.attempts, t) + 1
  {
    var t, c1 := CommitTask(c, e).value, Next(c, e);
    CommitLeavesDispatching(c, e);
    hide MemoryInv, DurableInv, CommitTask, Next, Persist, ReleasedBook;
    var c2 := SetTask(ReleaseFor(c1, t), t, READY);
    PersistFrame(c2.(readyAt := c2.readyAt[t := later]), saved);
  }

  lemma CommitLeavesDispatching(c: Core, e: Event)
    requires Inv(c) && CommitTask(c, e).Some? && TaskStateOf(c, CommitTask(c, e).value) == DISPATCHING
    ensures var t, c1 := CommitTask(c, e).value, Next(c, e);
            && TaskStateOf(c1, t) == DISPATCHING && Holdless(c1.reservations, t)
            && CommitCount(c1.attempts, t) == CommitCount(c.attempts, t) + 1
            && c1.dispatchAt == c.dispatchAt
  {
    var t, c1 := CommitTask(c, e).value, Next(c, e);
    hide MemoryInv, DurableInv, CommitTask, Next, Holdless, CommitCount;
    CommitFrame(c, e);
    NextHistory(c, e);
    NextInv(c, e);
    UnrecordedIsHoldless(c1, t);
  }

  // ----- finality -----

  predicate IsFinal(s: TaskState) {
    s == SUCCEEDED || s == CANCELLED || s == EXPIRED
  }

  /** `t` is in the final state `s` with `n` committed attempts, in memory and on disk. */
  ghost predicate Settled(c: Core, t: Id, s: TaskState, n: nat) {
    && IsFinal(s)
    && t in c.graph.states && c.graph.states[t] == s && CommitCount(c.attempts, t) == n
    && t in c.disk.taskStates && c.disk.taskStates[t] == s && CommitCount(c.disk.attempts, t) == n
  }

  lemma StepKeepsFinal(c: Core, e: Event, t: Id)
    requires MemoryInv(c) && !e.step.DoRestart?
    requires t in c.graph.states && IsFinal(c.graph.states[t])
    ensures t in Next(c, e).graph.states && Next(c, e).graph.states[t] == c.graph.states[t]
    ensures CommitCount(Next(c, e).attempts, t) == CommitCount(c.attempts, t)
  {
    hide Next, MemoryInv, CommitTask, CommitCount, Carries, Evolves, CommitStates, CommitAttempts;
    NextHistory(c, e);
    if CommitTask(c, e).Some? {
      CommitCounts(c.attempts, Next(c, e).attempts, CommitTask(c, e).value, Epoch(c), t);
      CommitSucceeds(c.graph, Next(c, e).graph, CommitTask(c, e).value, t);
    } else {
      CarriesCounts(c.attempts, Next(c, e).attempts, Epoch(c), t);
      EvolvesSucceeds(c.graph, Next(c, e).graph, t);
    }
  }

  lemma NextSettled(c: Core, e: Event, t: Id, s: TaskState, n: nat)
    requires Inv(c) && Enabled(c, e) && Settled(c, t, s, n)
    ensures Settled(Next(c, e), t, s, n)
  {
    var c1 := Next(c, e);
    hide Next, MemoryInv, DurableInv, Enabled, CommitCount;
    NextThrough(c, e);
    if e.step.DoRestart? {
      RestartKeepsFinal(c, e, t);
    } else {
      StepKeepsFinal(c, e, t);
    }
    SavedCount(c1.attempts, t);
  }

  lemma RestartKeepsFinal(c: Core, e: Event, t: Id)
    requires Inv(c) && Enabled(c, e) && e.step.DoRestart?
    requires t in c.disk.taskStates && IsFinal(c.disk.taskStates[t])
    ensures t in Next(c, e).graph.states && Next(c, e).graph.states[t] == c.disk.taskStates[t]
    ensures Next(c, e).attempts == c.disk.attempts
  {
    hide Next, MemoryInv, DurableInv, Enabled, DepsOf;
    RestartResumes(c, e);
  }

  /** Finality, whatever saves fail: once Succeeded, Cancelled or Expired has reached the
      disk, the task stays in that state and gains no committed attempt. */
  lemma {:induction false} FinalIsForever(c: Core, run: seq<Event>, t: Id, s: TaskState, n: nat)
    requires Inv(c) && Possible(c, run) && Settled(c, t, s, n)
    ensures Settled(After(c, run), t, s, n)
    decreases |run|
  {
    hide Inv, Next, Settled, Enabled;
    if run != [] {
      NextInv(c, run[0]);
      NextSettled(c, run[0], t, s, n);
      FinalIsForever(Next(c, run[0]), run[1..], t, s, n);
    }
  }

  /** A final state survives a restart if and only if it has reached the disk. */
  lemma FinalSurvivesIff(c: Core, e: Event, t: Id)
    requires Inv(c) && Enabled(c, e) && e.step.DoRestart?
    requires t in c.graph.states && IsFinal(c.graph.states[t])
    ensures t in Next(c, e).graph.states && Next(c, e).graph.states[t] == c.graph.states[t]
            <==> t in c.disk.taskStates && c.disk.taskStates[t] == c.graph.states[t]
  {
    hide Inv, Next, Enabled, Resumes, Rearmed;
    RestartResumes(c, e);
    FinalResumes(Next(c, e), c.disk, t, c.graph.states[t]);
  }

  lemma FinalResumes(c: Core, d: DurableState, t: Id, s: TaskState)
    requires Resumes(c, d) && IsFinal(s)
    ensures t in c.graph.states && c.graph.states[t] == s <==> t in d.taskStates && d.taskStates[t] == s
  {
    hide DepsOf;
  }

  // ----- fencing -----

  /** Outside a restart, a committed attempt is one that was there as it is, or it belongs
      to the current epoch. */
  lemma NewCommitsAreCurrent(c: Core, e: Event, p: Spot)
    requires MemoryInv(c) && !e.step.DoRestart?
    requires IsSpot(Next(c, e).attempts, p) && Next(c, e).attempts[p.task][p.index].committed
    ensures Next(c, e).attempts[p.task][p.index].epoch == Epoch(Next(c, e))
            || (IsSpot(c.attempts, p) && c.attempts[p.task][p.index] == Next(c, e).attempts[p.task][p.index])
  {
    hide Next, MemoryInv, CommitTask, Evolves, CommitStates, CommitCount;
    NextHistory(c, e);
  }

  /** Every attempt of an earlier epoch that memory holds is on disk as it is. */
  ghost predicate PastSaved(c: Core) {
    forall t, x :: Filed(c.attempts, t, x) && x.epoch < Epoch(c) ==> Filed(c.disk.attempts, t, x)
  }

  ghost predicate Filed(m: map<Id, seq<Attempt>>, t: Id, x: Attempt) {
    t in m && x in m[t]
  }

  lemma {:induction false} CommittedOnlyKeeps(list: seq<Attempt>, x: Attempt)
    requires x in list && x.committed
    ensures x in CommittedOnly(list)
    decreases |list|
  {
    if list[0] != x {
      CommittedOnlyKeeps(list[1..], x);
    }
  }

  lemma SyncedOnRecord(c: Core, t: Id, x: Attempt)
    requires Synced(c) && Filed(c.attempts, t, x) && x.committed
    ensures Filed(c.disk.attempts, t, x)
  {
    CommittedOnlyKeeps(c.attempts[t], x);
  }

  lemma PastIsCommitted(c: Core, t: Id, x: Attempt)
    requires MemoryInv(c) && Filed(c.attempts, t, x) && x.epoch < Epoch(c)
    ensures x.committed
  {
    var i :| 0 <= i < |c.attempts[t]| && c.attempts[t][i] == x;
    assert AttemptOk(c.attempts[t][i], t, Epoch(c));
  }

  lemma CarriesPast(m: map<Id, seq<Attempt>>, m1: map<Id, seq<Attempt>>, epoch: U64, t: Id, x: Attempt)
    requires Carries(m, m1, epoch) && x.epoch < epoch && (Filed(m1, t, x) ==> x.committed)
    ensures Filed(m, t, x) <==> Filed(m1, t, x)
  {
    hide CommitCount;
    if Filed(m, t, x) {
      var i :| 0 <= i < |m[t]| && m[t][i] == x;
      assert IsSpot(m, Spot(t, i));
      assert m1[t][i] == x;
    }
    if Filed(m1, t, x) {
      var i :| 0 <= i < |m1[t]| && m1[t][i] == x;
      assert IsSpot(m1, Spot(t, i));
      assert IsSpot(m, Spot(t, i));
      assert m[t][i] == x;
    }
  }

  lemma CommitKeepsPast(m: map<Id, seq<Attempt>>, m1: map<Id, seq<Attempt>>, u: Id, epoch: U64, t: Id, x: Attempt)
    requires CommitAttempts(m, m1, u, epoch) && x.epoch < epoch
    ensures Filed(m, t, x) <==> Filed(m1, t, x)
  {
    hide CommitCount;
    if Filed(m, t, x) {
      var i :| 0 <= i < |m[t]| && m[t][i] == x;
      assert IsSpot(m, Spot(t, i));
      assert m1[t][i] == x;
    }
    if Filed(m1, t, x) {
      var i :| 0 <= i < |m1[t]| && m1[t][i] == x;
      assert IsSpot(m1, Spot(t, i));
      assert m[t][i] == x;
    }
  }

  /** Outside a restart no attempt of an earlier epoch changes, and none appears. */
  lemma StepKeepsPast(c: Core, e: Event, t: Id, x: Attempt)
    requires MemoryInv(c) && MemoryInv(Next(c, e)) && !e.step.DoRestart? && x.epoch < Epoch(c)
    ensures Epoch(Next(c, e)) == Epoch(c)
    ensures Filed(c.attempts, t, x) <==> Filed(Next(c, e).attempts, t, x)
  {
    NextHistory(c, e);
    var c1 := Next(c, e);
    hide Next, CommitTask, Evolves, CommitStates, Carries, CommitAttempts, Sound;
    if CommitTask(c, e).Some? {
      CommitKeepsPast(c.attempts, c1.attempts, CommitTask(c, e).value, Epoch(c), t, x);
    } else {
      if Filed(c1.attempts, t, x) {
        PastIsCommitted(c1, t, x);
      }
      CarriesPast(c.attempts, c1.attempts, Epoch(c), t, x);
    }
  }

  /** A restart takes up exactly the attempts on disk, all of an earlier epoch then. */
  lemma RestartKeepsPast(c: Core, e: Event, t: Id, x: Attempt)
    requires Inv(c) && Enabled(c, e) && e.step.DoRestart?
    ensures Filed(c.disk.attempts, t, x) <==> Filed(Next(c, e).attempts, t, x)
    ensures Filed(c.disk.attempts, t, x) ==> x.epoch < Epoch(Next(c, e))
  {
    RestartResumes(c, e);
    if Filed(c.disk.attempts, t, x) {
      var i :| 0 <= i < |c.disk.attempts[t]| && c.disk.attempts[t][i] == x;
      assert AttemptOk(c.disk.attempts[t][i], t, c.disk.epoch);
    }
    hide Next, MemoryInv, DurableInv, Enabled, DepsOf;
  }

  /** What is of an earlier epoch stays on disk. */
  lemma PastStaysOnRecord(c: Core, e: Event, t: Id, x: Attempt)
    requires Inv(c) && Enabled(c, e) && Filed(c.disk.attempts, t, x)
    requires Filed(Next(c, e).attempts, t, x) && x.epoch < Epoch(Next(c, e))
    ensures Filed(Next(c, e).disk.attempts, t, x)
  {
    hide Next, MemoryInv, DurableInv, Enabled, Filed;
    NextThrough(c, e);
    NextInv(c, e);
    PastIsCommitted(Next(c, e), t, x);
    if Synced(Next(c, e)) {
      SyncedOnRecord(Next(c, e), t, x);
    }
  }

  lemma NextPastSaved(c: Core, e: Event)
    requires Inv(c) && Enabled(c, e) && PastSaved(c)
    ensures PastSaved(Next(c, e))
  {
    var c1 := Next(c, e);
    NextInv(c, e);
    hide Next, MemoryInv, DurableInv, Enabled, Filed;
    forall t, x | Filed(c1.attempts, t, x) && x.epoch < Epoch(c1)
      ensures Filed(c1.disk.attempts, t, x)
    {
      if e.step.DoRestart? {
        RestartKeepsPast(c, e, t, x);
      } else {
        NextEpoch(c, e);
        StepKeepsPast(c, e, t, x);
      }
      PastStaysOnRecord(c, e, t, x);
    }
  }

  lemma {:induction false} RunPastSaved(c: Core, run: seq<Event>)
    requires Inv(c) && Possible(c, run) && PastSaved(c)
    ensures PastSaved(After(c, run))
    decreases |run|
  {
    hide Inv, Next, PastSaved, Enabled;
    if run != [] {
      NextInv(c, run[0]);
      NextPastSaved(c, run[0]);
      RunPastSaved(Next(c, run[0]), run[1..]);
    }
  }

  /** In every reachable state, whatever saves were lost, the disk holds every attempt of an
      earlier epoch. */
  lemma ReachablePastSaved(c: Core)
    requires Reachable(c)
    ensures Inv(c) && PastSaved(c)
  {
    ReachableInv(c);
    var c0, run :| Initial(c0) && Possible(c0, run) && After(c0, run) == c;
    InitialInv(c0);
    hide Inv;
    RunPastSaved(c0, run);
  }

  lemma NextKeepsPast(c: Core, e: Event, t: Id, x: Attempt)
    requires Inv(c) && Enabled(c, e) && PastSaved(c)
    requires Filed(c.attempts, t, x) && x.epoch < Epoch(c)
    ensures Filed(Next(c, e).attempts, t, x) && x.epoch < Epoch(Next(c, e))
  {
    hide Next, MemoryInv, DurableInv, Enabled;
    NextInv(c, e);
    if e.step.DoRestart? {
      RestartKeepsPast(c, e, t, x);
    } else {
      StepKeepsPast(c, e, t, x);
    }
  }

  lemma {:induction false} RunKeepsPast(c: Core, run: seq<Event>, t: Id, x: Attempt)
    requires Inv(c) && Possible(c, run) && PastSaved(c)
    requires Filed(c.attempts, t, x) && x.epoch < Epoch(c)
    ensures Filed(After(c, run).attempts, t, x) && x.epoch < Epoch(After(c, run))
    decreases |run|
  {
    hide Inv, Next, PastSaved, Enabled;
    if run != [] {
      NextInv(c, run[0]);
      NextPastSaved(c, run[0]);
      NextKeepsPast(c, run[0], t, x);
      RunKeepsPast(Next(c, run[0]), run[1..], t, x);
    }
  }

  /** Fencing, whatever saves fail: from any reachable state on, an attempt of an earlier
      epoch is never changed again, neither by a message nor by a restart. */
  lemma PastIsFrozen(c: Core, run: seq<Event>, t: Id, x: Attempt)
    requires Reachable(c) && Possible(c, run)
    requires Filed(c.attempts, t, x) && x.epoch < Epoch(c)
    ensures Filed(After(c, run).attempts, t, x) && x.epoch < Epoch(After(c, run))
  {
    hide Inv, PastSaved, Reachable;
    ReachablePastSaved(c);
    RunKeepsPast(c, run, t, x);
  }
}
