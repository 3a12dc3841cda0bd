/**
 What every coordinator step keeps.
 */
module CoordinatorInvariants {
  import opened Basics
  import opened Types
  import opened Paths
  import opened TaskGraphs
  import opened Reservations
  import opened CoordinatorCore
  import Lifecycle

  // ----- the invariants -----

  ghost predicate GraphInv(g: Graph) {
    WellFormed(g) && Inverse(g) && Complete(g) && Acyclic(g.deps)
  }

  /** States a task may be in before its dependencies have all succeeded. */
  predicate Waiting(s: TaskState) {
    s == SUBMITTED || s == BLOCKED || s == CANCELLED || s == EXPIRED
  }

  /** Dependency safety: past waiting, every dependency has succeeded. */
  ghost predicate DepSafe(deps: Edges, states: map<Id, TaskState>) {
    forall t, d :: t in states && !Waiting(states[t]) && d in Succ(deps, t) ==> d in states && states[d] == SUCCEEDED
  }

  predicate Executing(s: TaskState) {
    s == DISPATCHING || s == RUNNING
  }

  /** Reservation ownership: a live reservation is the one recorded for its task, and
      that task is dispatching or running. */
  ghost predicate Owned(m: Book, owner: map<Id, Id>, states: map<Id, TaskState>) {
    forall r :: r in m && !m[r].released ==>
      && m[r].taskId in owner && owner[m[r].taskId] == r
      && m[r].taskId in states && Executing(states[m[r].taskId])
  }

  ghost predicate BookInv(m: Book, owner: map<Id, Id>, epoch: U64) {
    && (forall r :: r in m ==> m[r].id == r && m[r].epoch == epoch)
    && (forall t :: t in owner ==> owner[t] in m && m[owner[t]].taskId == t)
  }

  ghost predicate AttemptOk(at: Attempt, t: Id, epoch: U64) {
    at.taskId == t && at.epoch <= epoch && (at.epoch < epoch ==> at.committed)
  }

  /** Attempts are filed under their tasks, each under its own id, and those of earlier
      epochs are all committed. */
  ghost predicate AttemptsInv(attempts: map<Id, seq<Attempt>>, tasks: set<Id>, epoch: U64) {
    && attempts.Keys <= tasks
    && (forall t, i :: t in attempts && 0 <= i < |attempts[t]| ==> AttemptOk(attempts[t][i], t, epoch))
    && UniqueIds(attempts)
  }

  ghost function IdAt(attempts: map<Id, seq<Attempt>>, p: Spot): Id
    requires IsSpot(attempts, p)
  {
    attempts[p.task][p.index].id
  }

  ghost predicate UniqueIds(attempts: map<Id, seq<Attempt>>) {
    forall p, q :: IsSpot(attempts, p) && IsSpot(attempts, q) && IdAt(attempts, p) == IdAt(attempts, q) ==> p == q
  }

  ghost predicate Sound(g: Graph, attempts: map<Id, seq<Attempt>>, m: Book, owner: map<Id, Id>, epoch: U64) {
    && GraphInv(g)
    && DepSafe(g.deps, g.states)
    && BookInv(m, owner, epoch)
    && Owned(m, owner, g.states)
    && AttemptsInv(attempts, g.tasks.Keys, epoch)
  }

  ghost predicate MemoryInv(c: Core) {
    Sound(c.graph, c.attempts, c.reservations, c.taskReservation, Epoch(c))
  }

  function DepsOf(tasks: map<Id, ComputeTask>): Edges {
    map t | t in tasks :: DepSet(tasks[t])
  }

  ghost predicate DurableInv(d: DurableState) {
    && (forall t :: t in d.tasks ==> d.tasks[t].id == t && DepSet(d.tasks[t]) <= d.tasks.Keys)
    && Acyclic(DepsOf(d.tasks))
    && d.taskStates.Keys == d.tasks.Keys
    && DepSafe(DepsOf(d.tasks), d.taskStates)
    && AttemptsInv(d.attempts, d.tasks.Keys, d.epoch)
    && (forall t, i :: t in d.attempts && 0 <= i < |d.attempts[t]| ==> d.attempts[t][i].committed)
  }

  ghost predicate DiskInv(c: Core) {
    DurableInv(c.disk) && c.disk.epoch <= Epoch(c)
  }

  ghost predicate Inv(c: Core) {
    MemoryInv(c) && DiskInv(c)
  }

  /** The disk agrees with memory on the epoch, the tasks, their states and their
      committed attempts. */
  ghost predicate Synced(c: Core) {
    && c.disk.epoch == Epoch(c)
    && c.disk.tasks == c.graph.tasks
    && c.disk.taskStates == c.graph.states
    && c.disk.attempts == CommittedAttempts(c.attempts)
  }

  // ----- persistence -----

  lemma {:induction false} CommittedOnlyFacts(list: seq<Attempt>)
    ensures forall i :: 0 <= i < |CommittedOnly(list)| ==>
      CommittedOnly(list)[i].committed && CommittedOnly(list)[i] in list
    ensures (forall i :: 0 <= i < |list| ==> !list[i].committed) ==> CommittedOnly(list) == []
    decreases |list|
  {
    if list != [] {
      CommittedOnlyFacts(list[1..]);
    }
  }

  /** Filtering keeps ids distinct. */
  ghost predicate DistinctIds(list: seq<Attempt>) {
    forall i, j :: 0 <= i < j < |list| ==> list[i].id != list[j].id
  }

  lemma {:induction false} CommittedOnlyDistinct(list: seq<Attempt>)
    requires DistinctIds(list)
    ensures DistinctIds(CommittedOnly(list))
    decreases |list|
  {
    if list != [] {
      CommittedOnlyDistinct(list[1..]);
      CommittedOnlyFacts(list[1..]);
      var tail := CommittedOnly(list[1..]);
      forall i | 0 <= i < |tail| ensures tail[i].id != list[0].id {
        var j :| 0 <= j < |list[1..]| && list[1..][j] == tail[i];
        assert list[j + 1] == tail[i];
      }
    }
  }

  lemma SpotOf(attempts: map<Id, seq<Attempt>>, t: Id, x: Attempt) returns (p: Spot)
    requires t in attempts && x in attempts[t]
    ensures IsSpot(attempts, p) && p.task == t && attempts[t][p.index] == x
  {
    var i :| 0 <= i < |attempts[t]| && attempts[t][i] == x;
    p := Spot(t, i);
  }

  lemma CommittedUnique(attempts: map<Id, seq<Attempt>>)
    requires UniqueIds(attempts)
    ensures UniqueIds(CommittedAttempts(attempts))
  {
    var m := CommittedAttempts(attempts);
    forall p, q | IsSpot(m, p) && IsSpot(m, q) && IdAt(m, p) == IdAt(m, q) ensures p == q {
      CommittedOnlyFacts(attempts[p.task]);
      CommittedOnlyFacts(attempts[q.task]);
      var p1 := SpotOf(attempts, p.task, m[p.task][p.index]);
      var q1 := SpotOf(attempts, q.task, m[q.task][q.index]);
      assert IdAt(attempts, p1) == IdAt(attempts, q1);
      assert p1 == q1;
      ListDistinct(attempts, p.task);
      CommittedOnlyDistinct(attempts[p.task]);
    }
  }

  lemma ListDistinct(attempts: map<Id, seq<Attempt>>, t: Id)
    requires UniqueIds(attempts) && t in attempts
    ensures DistinctIds(attempts[t])
  {
    forall i, j | 0 <= i < j < |attempts[t]| ensures attempts[t][i].id != attempts[t][j].id {
      assert IsSpot(attempts, Spot(t, i)) && IsSpot(attempts, Spot(t, j)) && Spot(t, i) != Spot(t, j);
      assert IdAt(attempts, Spot(t, i)) != IdAt(attempts, Spot(t, j));
    }
  }

  lemma CommittedAttemptsInv(attempts: map<Id, seq<Attempt>>, tasks: set<Id>, epoch: U64)
    requires AttemptsInv(attempts, tasks, epoch)
    ensures AttemptsInv(CommittedAttempts(attempts), tasks, epoch)
    ensures var m := CommittedAttempts(attempts);
            forall t, i :: t in m && 0 <= i < |m[t]| ==> m[t][i].committed
  {
    var m := CommittedAttempts(attempts);
    CommittedUnique(attempts);
    forall t, i | t in m && 0 <= i < |m[t]| ensures AttemptOk(m[t][i], t, epoch) && m[t][i].committed {
      CommittedOnlyFacts(attempts[t]);
      var p := SpotOf(attempts, t, m[t][i]);
    }
  }

  lemma WellFormedDeps(g: Graph)
    requires WellFormed(g)
    ensures DepsOf(g.tasks) == g.deps
  {
  }

  /** Persisting keeps the invariant, and a save that succeeds makes disk and memory agree. */
  lemma PersistInv(c: Core, saved: bool)
    requires MemoryInv(c) && DiskInv(c)
    ensures Inv(Persist(c, saved))
    ensures saved ==> Synced(Persist(c, saved))
  {
    SnapshotInv(c);
  }

  /** Persisting touches the durable record only, and not its epoch. */
  lemma PersistFrame(c: Core, saved: bool)
    ensures Persist(c, saved).graph == c.graph && Persist(c, saved).attempts == c.attempts
    ensures Persist(c, saved).reservations == c.reservations && Persist(c, saved).taskReservation == c.taskReservation
    ensures Epoch(Persist(c, saved)) == Epoch(c)
    ensures saved ==> Synced(Persist(c, saved))
  {
  }

  lemma SnapshotInv(c: Core)
    requires MemoryInv(c)
    ensures DurableInv(Snapshot(c))
  {
    CommittedAttemptsInv(c.attempts, c.graph.tasks.Keys, Epoch(c));
    WellFormedDeps(c.graph);
  }

  // ----- changing a task's state -----

  lemma SetStateGraphInv(g: Graph, t: Id, s: TaskState)
    requires GraphInv(g)
    ensures GraphInv(SetState(g, t, s))
  {
    var h := SetState(g, t, s);
    assert h.deps == g.deps && h.dependents == g.dependents && h.tasks == g.tasks && h.states.Keys == g.states.Keys;
    assert Inverse(h) by {
      forall d, x ensures x in Succ(h.dependents, d) <==> d in Succ(h.deps, x) {
        assert x in Succ(g.dependents, d) <==> d in Succ(g.deps, x);
      }
    }
  }

  /** A transition keeps dependency safety when it stays among the waiting states, when
      the task was already past them, or when its dependencies have succeeded. */
  lemma SetStateDepSafe(g: Graph, t: Id, s: TaskState)
    requires DepSafe(g.deps, g.states)
    requires Waiting(s) || !Waiting(StateOf(g, t)) || Satisfied(g, t)
    ensures DepSafe(g.deps, SetState(g, t, s).states)
  {
    var h := SetState(g, t, s);
    forall x, d | x in h.states && !Waiting(h.states[x]) && d in Succ(g.deps, x)
      ensures d in h.states && h.states[d] == SUCCEEDED
    {
      if x == t && Waiting(g.states[t]) {
        assert Satisfied(g, t);
      } else {
        assert !Waiting(g.states[x]);
      }
      assert d in g.states && g.states[d] == SUCCEEDED;
    }
  }

  /** No live reservation belongs to `t`. */
  ghost predicate Holdless(m: Book, t: Id) {
    forall r :: r in m && m[r].taskId == t ==> m[r].released
  }

  lemma SetStateOwned(m: Book, owner: map<Id, Id>, g: Graph, t: Id, s: TaskState)
    requires Owned(m, owner, g.states)
    requires Executing(s) || Holdless(m, t)
    ensures Owned(m, owner, SetState(g, t, s).states)
  {
  }

  /** Releasing a task's reservation leaves it without any, and disturbs no other. */
  lemma ReleaseForInv(c: Core, t: Id)
    requires MemoryInv(c)
    ensures MemoryInv(ReleaseFor(c, t))
    ensures Holdless(ReleaseFor(c, t).reservations, t)
  {
    var c1 := ReleaseFor(c, t);
    hide GraphInv, DepSafe, AttemptsInv;
    if t in c.taskReservation {
      forall r | r in c1.reservations && c1.reservations[r].taskId == t ensures c1.reservations[r].released {
        if !c.reservations[r].released { assert c.taskReservation[t] == r; }
      }
      assert Owned(c1.reservations, c1.taskReservation, c1.graph.states) by {
        forall r | r in c1.reservations && !c1.reservations[r].released
          ensures c1.reservations[r].taskId in c1.taskReservation
          ensures c1.taskReservation[c1.reservations[r].taskId] == r
          ensures c1.reservations[r].taskId in c1.graph.states && Executing(c1.graph.states[c1.reservations[r].taskId])
        {
          assert c.reservations[r] == c1.reservations[r];
        }
      }
    }
  }

  lemma SetTaskInv(c: Core, t: Id, s: TaskState)
    requires MemoryInv(c)
    requires Executing(s) || Holdless(c.reservations, t)
    requires Waiting(s) || !Waiting(TaskStateOf(c, t)) || Satisfied(c.graph, t)
    ensures MemoryInv(SetTask(c, t, s))
  {
    SetStateGraphInv(c.graph, t, s);
    SetStateDepSafe(c.graph, t, s);
    SetStateOwned(c.reservations, c.taskReservation, c.graph, t, s);
  }

  /** A transition that cannot leave the waiting states keeps dependency safety for free. */
  lemma IllegalFromWaiting(g: Graph, t: Id, s: TaskState)
    requires s == RUNNING || s == SUCCEEDED || s == FAILED || s == RETRY_PENDING || s == PREEMPTED || s == LOST
    ensures Waiting(StateOf(g, t)) ==> SetState(g, t, s) == g
  {
  }

  // ----- changing an attempt -----

  lemma PutInv(attempts: map<Id, seq<Attempt>>, tasks: set<Id>, epoch: U64, p: Spot, a: Attempt)
    requires AttemptsInv(attempts, tasks, epoch) && IsSpot(attempts, p)
    requires a.id == attempts[p.task][p.index].id && AttemptOk(a, p.task, epoch)
    ensures AttemptsInv(Put(attempts, p, a), tasks, epoch)
  {
    var m := Put(attempts, p, a);
    forall x, y | IsSpot(m, x) && IsSpot(m, y) && IdAt(m, x) == IdAt(m, y) ensures x == y {
      assert IsSpot(attempts, x) && IsSpot(attempts, y) && IdAt(attempts, x) == IdAt(attempts, y);
    }
  }

  lemma FoundAttempt(c: Core, a: Id)
    requires MemoryInv(c) && Known(c.attempts, a)
    ensures var p := Find(c.attempts, a);
            AttemptOk(c.attempts[p.task][p.index], p.task, Epoch(c)) && p.task in c.graph.tasks
  {
  }
}
