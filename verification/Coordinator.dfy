/**
 The coordinator object. Each handler changes the fields in place, in the order the
 program does, and is proved to take the whole state where its function on `Core` says.
 Whether a save reaches the disk is decided outside: `saved` is an out-parameter of
 every operation that persists.
 */
module Coordinators {
  import opened Basics
  import opened Types
  import opened Paths
  import opened TaskGraphs
  import opened Reservations
  import opened CoordinatorCore
  import opened CoordinatorInvariants
  import opened CoordinatorSteps
  import opened CoordinatorRecovery
  import opened CoordinatorHistory
  import opened CoordinatorRuns
  import Lifecycle

  // ----- loops over the attempt lists -----

  method KeepCommitted(list: seq<Attempt>) returns (out: seq<Attempt>)
    ensures out == CommittedOnly(list)
  {
    out := [];
    for i := 0 to |list|
      invariant out + CommittedOnly(list[i..]) == CommittedOnly(list)
    {
      assert list[i..][1..] == list[i + 1..];
      if list[i].committed {
        out := out + [list[i]];
      }
    }
  }

  function Within<T>(m: map<Id, T>, s: set<Id>): map<Id, T> {
    map k | k in m && k in s :: m[k]
  }

  method CollectCommitted(attempts: map<Id, seq<Attempt>>) returns (out: map<Id, seq<Attempt>>)
    ensures out == CommittedAttempts(attempts)
  {
    out := map[];
    var todo := attempts.Keys;
    ghost var done: set<Id> := {};
    while todo != {}
      invariant todo <= attempts.Keys && done !! todo && done + todo == attempts.Keys
      invariant out == CommittedAttempts(Within(attempts, done))
    {
      var t := Least(todo);
      var list := KeepCommitted(attempts[t]);
      if list != [] {
        out := out[t := list];
      }
      todo, done := todo - {t}, done + {t};
    }
    assert Within(attempts, done) == attempts;
  }

  method CountAttempts(attempts: map<Id, seq<Attempt>>) returns (out: map<Id, U32>)
    ensures out == AttemptCounts(attempts)
  {
    out := map[];
    var todo := attempts.Keys;
    ghost var done: set<Id> := {};
    while todo != {}
      invariant todo <= attempts.Keys && done !! todo && done + todo == attempts.Keys
      invariant out == AttemptCounts(Within(attempts, done))
    {
      var t := Least(todo);
      out := out[t := |attempts[t]| % TWO_32];
      todo, done := todo - {t}, done + {t};
    }
    assert Within(attempts, done) == attempts;
  }

  method ListPlacements(placements: map<Id, StoredPlacement>) returns (out: seq<StoredPlacement>)
    ensures out == InKeyOrder(placements)
  {
    out := [];
    var rest := placements;
    while rest != map[]
      invariant out + InKeyOrder(rest) == InKeyOrder(placements)
      decreases rest.Keys
    {
      var k := Least(rest.Keys);
      out := out + [rest[k]];
      rest := rest - {k};
    }
  }

  ghost predicate KnownIn(attempts: map<Id, seq<Attempt>>, keys: set<Id>, a: Id) {
    exists p: Spot :: p.task in keys && Holds(attempts, p, a)
  }

  /** In the order the attempts are walked, `p` does not come after `q`. */
  predicate NotAfter(p: Spot, q: Spot) {
    p.task < q.task || (p.task == q.task && p.index <= q.index)
  }

  method FindAttempt(attempts: map<Id, seq<Attempt>>, a: Id) returns (r: Option<Spot>)
    ensures r == None <==> !Known(attempts, a)
    ensures r.Some? ==> Holds(attempts, r.value, a)
    ensures r.Some? ==> forall q :: Holds(attempts, q, a) ==> NotAfter(r.value, q)
  {
    var todo := attempts.Keys;
    ghost var done: set<Id> := {};
    while todo != {}
      invariant todo <= attempts.Keys && attempts.Keys <= done + todo
      invariant !KnownIn(attempts, done, a)
    {
      var t := Least(todo);
      for i := 0 to |attempts[t]|
        invariant forall j :: 0 <= j < i ==> attempts[t][j].id != a
      {
        if attempts[t][i].id == a {
          assert Holds(attempts, Spot(t, i), a);
          forall q | Holds(attempts, q, a) ensures NotAfter(Spot(t, i), q) {
            assert q.task !in done;
          }
          return Some(Spot(t, i));
        }
      }
      todo, done := todo - {t}, done + {t};
    }
    return None;
  }

  lemma FoundIsFind(attempts: map<Id, seq<Attempt>>, p: Spot, a: Id)
    requires UniqueIds(attempts) && Holds(attempts, p, a)
    ensures Known(attempts, a) && Find(attempts, a) == p
  {
    assert IdAt(attempts, p) == IdAt(attempts, Find(attempts, a));
  }

  lemma NoOrphansYet(list: seq<Attempt>, t: Id, n: Id)
    ensures [] + Orphans(list[0..], t, n) == Orphans(list, t, n) && Orphans(list[|list|..], t, n) == []
  {
    assert list[0..] == list && list[|list|..] == [];
  }

  lemma NextOrphan(out: seq<Id>, list: seq<Attempt>, i: nat, t: Id, n: Id)
    requires i < |list|
    ensures out + Orphans(list[i..], t, n)
            == (if Orphaned(list[i], n) then out + [t] else out) + Orphans(list[i + 1..], t, n)
  {
    hide Orphaned;
    assert list[i..][0] == list[i] && list[i..][1..] == list[i + 1..];
  }

  method CollectOrphans(list: seq<Attempt>, t: Id, n: Id) returns (out: seq<Id>)
    ensures out == Orphans(list, t, n)
  {
    hide Orphaned, Orphans;
    out := [];
    NoOrphansYet(list, t, n);
    for i := 0 to |list|
      invariant out + Orphans(list[i..], t, n) == Orphans(list, t, n)
    {
      NextOrphan(out, list, i, t, n);
      if Orphaned(list[i], n) {
        out := out + [t];
      }
    }
  }

  method CollectAffected(attempts: map<Id, seq<Attempt>>, n: Id) returns (out: seq<Id>)
    ensures out == Affected(attempts, n)
  {
    out := [];
    var rest := attempts;
    while rest != map[]
      invariant out + Affected(rest, n) == Affected(attempts, n)
      decreases rest.Keys
    {
      var t := Least(rest.Keys);
      var orphans := CollectOrphans(rest[t], t, n);
      assert out + (orphans + Affected(rest - {t}, n)) == (out + orphans) + Affected(rest - {t}, n);
      out := out + orphans;
      rest := rest - {t};
    }
  }

  // ----- the propagation after a success -----

  lemma MakeReadyNext(g: Graph, ds: set<Id>, d: Id)
    requires StateOf(MakeReady(g, ds), d) == BLOCKED
    ensures MakeReady(g, ds + {d}) == SetState(MakeReady(g, ds), d, READY)
  {
    assert MakeReady(g, ds + {d}).states == SetState(MakeReady(g, ds), d, READY).states;
  }

  lemma StampNext(times: map<Id, int>, ds: set<Id>, d: Id, now: Int64)
    ensures Stamp(times, ds + {d}, now) == Stamp(times, ds, now)[d := now]
  {
  }

  lemma WakeNone(g: Graph, times: map<Id, int>, now: Int64)
    ensures MakeReady(g, {}) == g && Stamp(times, {}, now) == times
  {
    assert MakeReady(g, {}).states == g.states;
  }

  /** Making blocked tasks ready satisfies no dependency. */
  lemma StillSatisfied(g: Graph, ds: set<Id>, d: Id)
    requires forall x :: x in ds ==> StateOf(g, x) == BLOCKED
    ensures Satisfied(MakeReady(g, ds), d) <==> Satisfied(g, d)
  {
    var h := MakeReady(g, ds);
    forall x ensures x in g.states && g.states[x] == SUCCEEDED <==> x in h.states && h.states[x] == SUCCEEDED {
    }
  }

  /** Nothing waits only for a task that has not succeeded. */
  lemma NothingUnblocked(g: Graph, t: Id)
    requires Inverse(g) && StateOf(g, t) != SUCCEEDED
    ensures Unblocked(g, t) == {}
  {
    if d :| d in Unblocked(g, t) {
      assert false;
    }
  }

  lemma UnblockedWithin(g: Graph, t: Id)
    ensures Unblocked(g, t) <= Succ(g.dependents, t)
  {
  }

  /** A task that is waiting cannot be lost or fail. */
  lemma PoisonIsIgnored(g: Graph, d: Id)
    requires StateOf(g, d) == BLOCKED || StateOf(g, d) == SUBMITTED
    ensures SetState(g, d, LOST) == g && SetState(g, d, FAILED) == g
  {
  }

  /** The tasks that depend, directly or not, on `id`: what the recursion descends. */
  ghost function Downstream(deps: Edges, id: Id): set<Id> {
    set u | u in deps && Reaches(deps, u, id)
  }

  lemma DownstreamShrinks(deps: Edges, id: Id, d: Id)
    requires Acyclic(deps) && id in deps && d in deps && id in deps[d]
    ensures Downstream(deps, d) < Downstream(deps, id)
  {
    forall u | u in Downstream(deps, d) ensures u in Downstream(deps, id) {
      ReachThenStep(deps, u, d, id);
    }
    ReachesSelf(deps, id);
    assert !Reaches(deps, id, d) by {
      if Reaches(deps, id, d) {
        StepThenReach(deps, d, id, d);
      }
    }
    assert id in Downstream(deps, id) && id !in Downstream(deps, d);
  }

  lemma AcceptedIsPresent(g: Graph, task: ComputeTask)
    requires WellFormed(g) && task.id !in g.tasks
    ensures Added(g, task).1 == Done <==> task.id in Added(g, task).0.tasks
  {
    hide CycleFrom;
  }

  lemma InvFacts(c: Core)
    requires Inv(c)
    ensures WellFormed(c.graph) && Inverse(c.graph) && Acyclic(c.graph.deps)
    ensures UniqueIds(c.attempts) && c.attempts.Keys <= c.graph.tasks.Keys
    ensures forall p :: IsSpot(c.attempts, p) ==> c.attempts[p.task][p.index].taskId == p.task
  {
    forall p | IsSpot(c.attempts, p) ensures c.attempts[p.task][p.index].taskId == p.task {
      assert AttemptOk(c.attempts[p.task][p.index], p.task, Epoch(c));
    }
  }

  // ----- the order in which ready tasks are placed -----

  function ReadyTime(times: map<Id, int>, t: Id): int {
    if t in times then times[t] else 0
  }

  /** Urgent first, then longest ready, then by id. */
  predicate Ahead(tasks: map<Id, ComputeTask>, times: map<Id, int>, a: Id, b: Id)
    requires a in tasks && b in tasks
  {
    var pa, pb := tasks[a].priority, tasks[b].priority;
    var ra, rb := ReadyTime(times, a), ReadyTime(times, b);
    pa < pb || (pa == pb && (ra < rb || (ra == rb && a < b)))
  }

  ghost predicate InPlacingOrder(tasks: map<Id, ComputeTask>, times: map<Id, int>, q: seq<Id>) {
    && (forall x :: x in q ==> x in tasks)
    && forall i, j :: 0 <= i < j < |q| ==> Ahead(tasks, times, q[i], q[j])
  }

  /** What the order says: a more urgent task comes first whatever its time; among equally urgent
      ones the one ready longer; and among those the one with the smaller id. */
  lemma PlacingOrderSays(tasks: map<Id, ComputeTask>, times: map<Id, int>, q: seq<Id>, i: nat, j: nat)
    requires InPlacingOrder(tasks, times, q) && i < |q| && j < |q|
    ensures q[i] in tasks && q[j] in tasks
    ensures tasks[q[i]].priority < tasks[q[j]].priority ==> i < j
    ensures tasks[q[i]].priority == tasks[q[j]].priority && q[i] in times && q[j] in times ==>
              (times[q[i]] < times[q[j]] ==> i < j) && (times[q[i]] == times[q[j]] && q[i] < q[j] ==> i < j)
  {
    assert q[i] in q && q[j] in q;
    if j < i {
      assert Ahead(tasks, times, q[j], q[i]);
    }
  }

  method Insert(tasks: map<Id, ComputeTask>, times: map<Id, int>, q: seq<Id>, x: Id) returns (out: seq<Id>)
    requires x in tasks && x !in q && InPlacingOrder(tasks, times, q)
    ensures InPlacingOrder(tasks, times, out) && Elements(out) == Elements(q) + {x}
  {
    var i := |q|;
    while i > 0 && Ahead(tasks, times, x, q[i - 1])
      invariant 0 <= i <= |q|
      invariant forall j :: i <= j < |q| ==> Ahead(tasks, times, x, q[j])
    {
      i := i - 1;
    }
    AheadOfAll(tasks, times, q, x, i);
    out := q[..i] + [x] + q[i..];
    Inserted(tasks, times, q, x, i);
  }

  lemma AheadOfAll(tasks: map<Id, ComputeTask>, times: map<Id, int>, q: seq<Id>, x: Id, i: nat)
    requires x in tasks && x !in q && InPlacingOrder(tasks, times, q) && i <= |q|
    requires i > 0 ==> !Ahead(tasks, times, x, q[i - 1])
    ensures forall j :: 0 <= j < i ==> Ahead(tasks, times, q[j], x)
  {
    forall j | 0 <= j < i ensures Ahead(tasks, times, q[j], x) {
      assert q[i - 1] in q && q[j] in q;
      assert j < i - 1 ==> Ahead(tasks, times, q[j], q[i - 1]);
    }
  }

  lemma Inserted(tasks: map<Id, ComputeTask>, times: map<Id, int>, q: seq<Id>, x: Id, i: nat)
    requires x in tasks && InPlacingOrder(tasks, times, q) && i <= |q|
    requires forall j :: 0 <= j < i ==> Ahead(tasks, times, q[j], x)
    requires forall j :: i <= j < |q| ==> Ahead(tasks, times, x, q[j])
    ensures var out := q[..i] + [x] + q[i..];
            InPlacingOrder(tasks, times, out) && Elements(out) == Elements(q) + {x}
  {
    var out := q[..i] + [x] + q[i..];
    assert forall y :: y in out <==> y in q || y == x;
    hide Ahead;
    forall j, k | 0 <= j < k < |out| ensures Ahead(tasks, times, out[j], out[k]) {
      assert k > i ==> out[k] == q[k - 1];
      assert j > i ==> out[j] == q[j - 1];
    }
  }

  /** The ready tasks in the order they are placed. */
  method SortReady(tasks: map<Id, ComputeTask>, times: map<Id, int>, ids: set<Id>) returns (out: seq<Id>)
    requires ids <= tasks.Keys
    ensures InPlacingOrder(tasks, times, out) && Elements(out) == ids
  {
    out := [];
    var todo := ids;
    while todo != {}
      invariant todo <= ids && InPlacingOrder(tasks, times, out) && Elements(out) == ids - todo
    {
      var x := Least(todo);
      assert x !in Elements(out);
      out := Insert(tasks, times, out, x);
      todo := todo - {x};
    }
  }

  // ----- fresh identifiers for a round of placements -----

  /** The identifiers that would be drawn for the tasks of `ts` are new and differ. */
  ghost predicate FreshChoices(c: Core, choose: Id -> Choice, ts: set<Id>) {
    && (forall t :: t in ts ==> choose(t).reservation !in c.reservations && !Known(c.attempts, choose(t).attempt))
    && (forall t, u :: t in ts && u in ts && t != u ==>
          choose(t).reservation != choose(u).reservation && choose(t).attempt != choose(u).attempt)
  }

  /** `c1` has no reservation and no attempt that `c` lacks, save those named in `ch`. */
  ghost predicate UsesOnly(c: Core, c1: Core, ch: Choice) {
    && c1.reservations.Keys <= c.reservations.Keys + {ch.reservation}
    && forall a :: Known(c1.attempts, a) ==> Known(c.attempts, a) || a == ch.attempt
  }

  lemma DispatchUses(c: Core, t: Id, n: NodeRecord, e: ExecutorType, ch: Choice, now: Int64)
    requires t in c.graph.tasks
    ensures UsesOnly(c, Dispatch(c, t, n, e, ch, now), ch)
  {
    hide SetState, Fresh, SlotsFor;
    var c1 := Dispatch(c, t, n, e, ch, now);
    assert c1.reservations.Keys == c.reservations.Keys + {ch.reservation};
    forall a | Known(c1.attempts, a) && a != ch.attempt ensures Known(c.attempts, a) {
      var p := Find(c1.attempts, a);
      assert Holds(c.attempts, p, a);
    }
  }

  lemma ScheduleUses(c: Core, t: Id, ch: Choice, now: Int64, saved: bool)
    ensures UsesOnly(c, Schedule(c, t, ch, now, saved), ch)
  {
    var c1 := RecordPlacement(c, t, ch.decision);
    UsesNothing(c, c, ch);
    UsesNothing(c, c1, ch);
    UsesNothing(c, SetTask(c, t, EXPIRED), ch);
    hide Persist, Dispatch, SetState, Refusals, SlotsFor, ChosenExecutor, Known, UsesOnly;
    UsesPersisted(c, SetTask(c, t, EXPIRED), ch, saved);
    if t in c.graph.tasks && ch.decision.chosenNode.Some? && ch.decision.chosenNode.value in c.nodes {
      var n := c.nodes[ch.decision.chosenNode.value];
      var e := ChosenExecutor(c.graph.tasks[t], ch.decision);
      DispatchUses(c1, t, n, e, ch, now);
      UsesThrough(c, c1, Dispatch(c1, t, n, e, ch, now), ch);
      UsesPersisted(c, Dispatch(c1, t, n, e, ch, now), ch, saved);
    }
  }

  lemma UsesNothing(c: Core, c1: Core, ch: Choice)
    requires c1.attempts == c.attempts && c1.reservations == c.reservations
    ensures UsesOnly(c, c1, ch)
  {
    hide Known;
  }

  lemma UsesThrough(c: Core, c1: Core, c2: Core, ch: Choice)
    requires c1.attempts == c.attempts && c1.reservations == c.reservations && UsesOnly(c1, c2, ch)
    ensures UsesOnly(c, c2, ch)
  {
    hide Known;
  }

  lemma UsesPersisted(c: Core, c1: Core, ch: Choice, saved: bool)
    requires UsesOnly(c, c1, ch)
    ensures UsesOnly(c, Persist(c1, saved), ch)
  {
    PersistFrame(c1, saved);
    hide Persist, Known;
  }

  lemma StillFresh(c: Core, choose: Id -> Choice, ts: set<Id>, t: Id, now: Int64, saved: bool)
    requires FreshChoices(c, choose, ts) && t in ts
    ensures FreshChoices(Schedule(c, t, choose(t), now, saved), choose, ts - {t})
  {
    hide Schedule, Known;
    ScheduleUses(c, t, choose(t), now, saved);
  }

  lemma RestOf(ids: seq<Id>, i: nat)
    requires Distinct(ids) && i < |ids|
    ensures Elements(ids[i..]) - {ids[i]} == Elements(ids[i + 1..]) && ids[i] in Elements(ids[i..])
  {
    assert ids[i..] == [ids[i]] + ids[i + 1..];
  }

  lemma PlacingOrderIsDistinct(tasks: map<Id, ComputeTask>, times: map<Id, int>, q: seq<Id>)
    requires InPlacingOrder(tasks, times, q)
    ensures Distinct(q)
  {
    forall i, j | 0 <= i < j < |q| ensures q[i] != q[j] {
      assert Ahead(tasks, times, q[i], q[j]);
    }
  }

  /** The run leads from `c` to `c1`. */
  ghost predicate Leads(c: Core, run: seq<Event>, c1: Core) {
    Possible(c, run) && After(c, run) == c1
  }

  lemma LeadsOn(c: Core, run: seq<Event>, c1: Core, e: Event)
    requires Leads(c, run, c1) && Enabled(c1, e)
    ensures Leads(c, run + [e], Next(c1, e))
  {
    hide Next, Enabled;
    AfterSnoc(c, run, e);
  }

  lemma LeadsThrough(c: Core, run: seq<Event>, c1: Core, more: seq<Event>, c2: Core)
    requires Leads(c, run, c1) && Leads(c1, more, c2)
    ensures Leads(c, run + more, c2)
  {
    hide Next, Enabled;
    AfterAppend(c, run, more);
  }

  /** The step keeps the tasks and the attempts, and names no new reservation. */
  ghost predicate Keeps(c: Core, c1: Core) {
    c1.graph.tasks == c.graph.tasks && c1.attempts == c.attempts && c1.reservations.Keys == c.reservations.Keys
  }

  lemma KeepsFresh(c: Core, c1: Core, choose: Id -> Choice, ts: set<Id>)
    requires Keeps(c, c1) && FreshChoices(c, choose, ts)
    ensures FreshChoices(c1, choose, ts)
  {
    hide Known;
  }

  lemma PersistKeeps(c: Core, c1: Core, saved: bool)
    requires Keeps(c, c1)
    ensures Keeps(c, Persist(c1, saved))
  {
    PersistFrame(c1, saved);
    hide Persist;
  }

  lemma MoveKeeps(c: Core, t: Id, s: TaskState)
    ensures Keeps(c, SetTask(c, t, s)) && Keeps(c, ReleaseFor(c, t))
  {
  }

  lemma LoseTaskKeeps(c: Core, t: Id, now: Int64)
    ensures Keeps(c, LoseTask(c, t, now))
  {
    MoveKeeps(c, t, LOST);
    hide ReleasedBook, StartBackoff, Lifecycle.IsLegal;
  }

  lemma {:induction false} LoseTasksKeeps(c: Core, ts: seq<Id>, now: Int64)
    ensures Keeps(c, LoseTasks(c, ts, now))
    decreases |ts|
  {
    hide LoseTask;
    if ts != [] {
      LoseTaskKeeps(c, ts[0], now);
      LoseTasksKeeps(LoseTask(c, ts[0], now), ts[1..], now);
    }
  }

  lemma LoseNodeKeeps(c: Core, n: Id, now: Int64, saved: bool)
    ensures Keeps(c, LoseNode(c, n, now, saved))
  {
    if n in c.nodes {
      var c1 := c.(nodes := c.nodes[n := c.nodes[n].(health := Offline, connected := false)],
                   reservations := ReleaseScope(c.reservations, OfNode(n)));
      assert Keeps(c, c1);
      hide ReleaseScope, LoseTasks, Affected, Persist;
      LoseTasksKeeps(c1, Affected(c1.attempts, n), now);
      PersistKeeps(c, LoseTasks(c1, Affected(c1.attempts, n), now), saved);
    }
  }

  lemma SweepKeeps(c: Core, t: Id, now: Int64, saved: bool)
    ensures Keeps(c, Requeue(c, t, now, saved))
    ensures Keeps(c, Retry(c, t, now, saved))
    ensures Keeps(c, Expire(c, t, now, saved))
  {
    MoveKeeps(c, t, READY);
    MoveKeeps(ReleaseFor(c, t), t, READY);
    MoveKeeps(ReleaseFor(c, t), t, EXPIRED);
    hide Persist, SetState, ReleasedBook;
    var c1 := SetTask(ReleaseFor(c, t), t, READY);
    PersistKeeps(c, c1.(readyAt := c1.readyAt[t := now]), saved);
    PersistKeeps(c, SetTask(c, t, READY).(readyAt := c.readyAt[t := now]), saved);
    PersistKeeps(c, SetTask(ReleaseFor(c, t), t, EXPIRED), saved);
  }

  /** A stretch of the sweep: a run that keeps tasks, attempts and reservation ids. */
  ghost predicate Sweeps(c: Core, run: seq<Event>, c1: Core) {
    Leads(c, run, c1) && Keeps(c, c1)
  }

  lemma SweepsNowhere(c: Core)
    ensures Sweeps(c, [], c)
  {
  }

  lemma SweepsOn(c: Core, run: seq<Event>, c1: Core, e: Event)
    requires Sweeps(c, run, c1) && Enabled(c1, e) && Keeps(c1, Next(c1, e))
    ensures Sweeps(c, run + [e], Next(c1, e))
  {
    hide Next, Enabled;
    LeadsOn(c, run, c1, e);
    hide Leads;
  }

  lemma SweepsThrough(c: Core, run: seq<Event>, c1: Core, more: seq<Event>, c2: Core)
    requires Sweeps(c, run, c1) && Sweeps(c1, more, c2)
    ensures Sweeps(c, run + more, c2)
  {
    LeadsThrough(c, run, c1, more, c2);
    hide Leads;
  }

  lemma SweptFresh(c: Core, run: seq<Event>, c1: Core, choose: Id -> Choice)
    requires Sweeps(c, run, c1) && FreshChoices(c, choose, c.graph.tasks.Keys)
    ensures FreshChoices(c1, choose, c1.graph.tasks.Keys)
  {
    hide Leads;
    KeepsFresh(c, c1, choose, c.graph.tasks.Keys);
  }

  lemma LoseNodeOn(c: Core, run: seq<Event>, c1: Core, n: Id, now: Int64, saved: bool)
    requires Sweeps(c, run, c1)
    ensures Sweeps(c, run + [Event(DoLoseNode(n), now, saved)], LoseNode(c1, n, now, saved))
  {
    LoseNodeKeeps(c1, n, now, saved);
    SweepEvents(c1, n, now, saved);
    hide Next, LoseNode, Keeps, Sweeps;
    SweepsOn(c, run, c1, Event(DoLoseNode(n), now, saved));
  }

  lemma RequeueOn(c: Core, run: seq<Event>, c1: Core, t: Id, now: Int64, saved: bool)
    requires Sweeps(c, run, c1)
    ensures Sweeps(c, run + [Event(DoRequeue(t), now, saved)], Requeue(c1, t, now, saved))
  {
    SweepKeeps(c1, t, now, saved);
    SweepEvents(c1, t, now, saved);
    hide Next, Requeue, Keeps, Sweeps;
    SweepsOn(c, run, c1, Event(DoRequeue(t), now, saved));
  }

  lemma RetryOn(c: Core, run: seq<Event>, c1: Core, t: Id, now: Int64, saved: bool)
    requires Sweeps(c, run, c1)
    ensures Sweeps(c, run + [Event(DoRetry(t), now, saved)], Retry(c1, t, now, saved))
  {
    SweepKeeps(c1, t, now, saved);
    SweepEvents(c1, t, now, saved);
    hide Next, Retry, Keeps, Sweeps;
    SweepsOn(c, run, c1, Event(DoRetry(t), now, saved));
  }

  lemma ExpireOn(c: Core, run: seq<Event>, c1: Core, t: Id, now: Int64, saved: bool)
    requires Sweeps(c, run, c1)
    ensures Sweeps(c, run + [Event(DoExpire(t), now, saved)], Expire(c1, t, now, saved))
  {
    SweepKeeps(c1, t, now, saved);
    SweepEvents(c1, t, now, saved);
    hide Next, Expire, Keeps, Sweeps;
    SweepsOn(c, run, c1, Event(DoExpire(t), now, saved));
  }

  /** Requeueing one task leaves the others on their timeouts. */
  lemma RequeueFrame(c: Core, t: Id, u: Id, now: Int64, saved: bool)
    requires u != t && DispatchTimedOut(c, u, now)
    ensures DispatchTimedOut(Requeue(c, t, now, saved), u, now)
  {
    hide Snapshot, ReleasedBook;
  }

  lemma ScheduleEvent(c: Core, t: Id, ch: Choice, now: Int64, saved: bool)
    ensures Next(c, Event(DoSchedule(t, ch), now, saved)) == Schedule(c, t, ch, now, saved)
  {
    hide Schedule;
  }

  /** What one kind of event does. */
  lemma SweepEvents(c: Core, t: Id, now: Int64, saved: bool)
    ensures Next(c, Event(DoLoseNode(t), now, saved)) == LoseNode(c, t, now, saved)
    ensures Next(c, Event(DoRequeue(t), now, saved)) == Requeue(c, t, now, saved)
    ensures Next(c, Event(DoRetry(t), now, saved)) == Retry(c, t, now, saved)
    ensures Next(c, Event(DoExpire(t), now, saved)) == Expire(c, t, now, saved)
  {
    hide LoseNode, Requeue, Retry, Expire;
  }

  // ----- recovery -----

  /** The states with those of `done` taken from the record. */
  function RestoredAmong(states: map<Id, TaskState>, saved: map<Id, TaskState>, done: set<Id>): map<Id, TaskState> {
    map t | t in states :: if t in done && t in saved then saved[t] else states[t]
  }

  /** The states with the active tasks of `done` recovered. */
  function RecoveredAmong(g: Graph, done: set<Id>): map<Id, TaskState> {
    map t | t in g.states :: if t in done && t in g.tasks then RecoveredState(g.tasks[t], g.states[t]) else g.states[t]
  }

  function TimersAmong(g: Graph, now: Int64, done: set<Id>): map<Id, int> {
    map t | t in done && t in g.tasks && Lifecycle.IsActive(StateOf(g, t)) && RetriesAfterLoss(g.tasks[t]) ::
      now + AsInt64(g.tasks[t].retry.retryBackoffMs)
  }

  /** From any active state a task can be lost, and from there retried or failed. */
  lemma LostThen(g: Graph, t: Id, s: TaskState)
    requires t in g.states && Lifecycle.IsActive(g.states[t]) && (s == RETRY_PENDING || s == FAILED)
    ensures SetState(SetState(g, t, LOST), t, s) == g.(states := g.states[t := s])
  {
    assert g.states[t := LOST][t := s] == g.states[t := s];
  }

  /** A task found active is lost, and from there retried or failed. */
  function RecoveredOne(g: Graph, t: Id): Graph
    requires t in g.tasks
  {
    if !Lifecycle.IsActive(StateOf(g, t)) then g
    else SetState(SetState(g, t, LOST), t, if RetriesAfterLoss(g.tasks[t]) then RETRY_PENDING else FAILED)
  }

  function RecoveryTimer(timers: map<Id, int>, g: Graph, t: Id, now: Int64): map<Id, int>
    requires t in g.tasks
  {
    StartBackoff(timers, g, t, Lifecycle.IsActive(StateOf(g, t)) && RetriesAfterLoss(g.tasks[t]), now)
  }

  lemma RecoveredMore(g: Graph, done: set<Id>, t: Id)
    requires WellFormed(g) && t in g.tasks && t !in done
    ensures RecoveredAmong(g, done).Keys == g.states.Keys && RecoveredAmong(g, done)[t] == g.states[t]
    ensures RecoveredAmong(g, done + {t}) == RecoveredAmong(g, done)[t := RecoveredState(g.tasks[t], g.states[t])]
  {
    hide RecoveredState;
  }

  lemma RecoverNext(g: Graph, done: set<Id>, t: Id)
    requires WellFormed(g) && t in g.tasks && t !in done
    ensures var h := g.(states := RecoveredAmong(g, done));
            g.(states := RecoveredAmong(g, done + {t})) == RecoveredOne(h, t)
  {
    RecoveredMore(g, done, t);
    hide RecoveredAmong, SetState, Lifecycle.IsActive;
    var h := g.(states := RecoveredAmong(g, done));
    if Lifecycle.IsActive(g.states[t]) {
      LostThen(h, t, if RetriesAfterLoss(g.tasks[t]) then RETRY_PENDING else FAILED);
    } else {
      assert h.states[t := g.states[t]] == h.states;
    }
  }

  lemma RecoveredAll(g: Graph, now: Int64, done: set<Id>)
    requires WellFormed(g) && done == g.tasks.Keys
    ensures RecoveredAmong(g, done) == Recovered(g).states && TimersAmong(g, now, done) == RecoveryTimers(g, now)
  {
  }

  lemma RecoveredNone(g: Graph, now: Int64)
    ensures RecoveredAmong(g, {}) == g.states && TimersAmong(g, now, {}) == map[]
  {
  }

  lemma RebuildStep(g: Graph, tasks: map<Id, ComputeTask>, ids: seq<Id>, i: nat)
    requires (forall t :: t in ids ==> t in tasks) && i < |ids|
    ensures forall t :: t in ids[i + 1..] ==> t in tasks
    ensures Rebuild(g, tasks, ids[i..])
            == var (g1, r) := Added(g, tasks[ids[i]]);
               if r != Done then Err(CorruptionDetected) else Rebuild(g1, tasks, ids[i + 1..])
  {
    hide Added;
    assert ids[i..][0] == ids[i] && ids[i..][1..] == ids[i + 1..];
  }

  method RebuildGraph(graph: TaskGraph, tasks: map<Id, ComputeTask>) returns (r: Outcome)
    requires graph.Valid() && graph.View() == EMPTY_GRAPH
    modifies graph
    ensures graph.Valid()
    ensures match Rebuild(EMPTY_GRAPH, tasks, Walk(tasks.Keys))
            case Ok(g) => r == Done && graph.View() == g
            case Err(e) => r == Failed(e)
  {
    hide WellFormed, Added, Rebuild;
    var ids := Walk(tasks.Keys);
    assert ids[0..] == ids;
    for i := 0 to |ids|
      invariant graph.Valid()
      invariant Rebuild(graph.View(), tasks, ids[i..]) == Rebuild(EMPTY_GRAPH, tasks, ids)
    {
      RebuildStep(graph.View(), tasks, ids, i);
      r := graph.AddTask(tasks[ids[i]]);
      if r != Done {
        return Failed(CorruptionDetected);
      }
    }
    RebuildDone(graph.View(), tasks);
    r := Done;
  }

  lemma RebuildDone(g: Graph, tasks: map<Id, ComputeTask>)
    ensures Rebuild(g, tasks, []) == Ok(g)
  {
  }

  method RestoreStates(graph: TaskGraph, d: DurableState)
    requires graph.Valid()
    modifies graph`states
    ensures graph.Valid() && graph.View() == Restored(old(graph.View()), d)
  {
    var todo := d.taskStates.Keys;
    ghost var done: set<Id> := {};
    RestoreNone(graph.states, d.taskStates);
    hide RestoredAmong;
    while todo != {}
      invariant done !! todo && done + todo == d.taskStates.Keys
      invariant graph.Valid() && graph.states == RestoredAmong(old(graph.states), d.taskStates, done)
    {
      var t := Least(todo);
      RestoreNext(old(graph.states), d.taskStates, done, t);
      if t in graph.tasks {
        graph.RestoreState(t, d.taskStates[t]);
      }
      todo, done := todo - {t}, done + {t};
    }
    RestoreAll(old(graph.View()), d);
  }

  lemma RestoreNone(states: map<Id, TaskState>, saved: map<Id, TaskState>)
    ensures RestoredAmong(states, saved, {}) == states
  {
  }

  lemma RestoreAll(g: Graph, d: DurableState)
    ensures RestoredAmong(g.states, d.taskStates, d.taskStates.Keys) == Restored(g, d).states
  {
  }

  lemma RestoreNext(states: map<Id, TaskState>, saved: map<Id, TaskState>, done: set<Id>, t: Id)
    requires t in saved
    ensures RestoredAmong(states, saved, done).Keys == states.Keys
    ensures RestoredAmong(states, saved, done + {t})
            == if t in states then RestoredAmong(states, saved, done)[t := saved[t]] else RestoredAmong(states, saved, done)
  {
  }

  method RecoverTask(graph: TaskGraph, timers: map<Id, int>, t: Id, now: Int64) returns (timers1: map<Id, int>)
    requires graph.Valid() && t in graph.tasks
    modifies graph`states
    ensures graph.Valid() && graph.View() == RecoveredOne(old(graph.View()), t)
    ensures timers1 == RecoveryTimer(timers, old(graph.View()), t, now)
  {
    timers1 := timers;
    if Lifecycle.IsActive(graph.State(t)) {
      hide SetState, WellFormed, Lifecycle.IsLegal;
      var task := graph.tasks[t];
      var _ := graph.SetTaskState(t, LOST);
      if RetriesAfterLoss(task) {
        var _ := graph.SetTaskState(t, RETRY_PENDING);
        timers1 := timers[t := now + AsInt64(task.retry.retryBackoffMs)];
      } else {
        var _ := graph.SetTaskState(t, FAILED);
      }
    }
  }

  method RecoverTasks(graph: TaskGraph, now: Int64) returns (timers: map<Id, int>)
    requires graph.Valid()
    modifies graph`states
    ensures graph.Valid() && graph.View() == Recovered(old(graph.View()))
    ensures timers == RecoveryTimers(old(graph.View()), now)
  {
    ghost var g := graph.View();
    var todo := graph.tasks.Keys;
    ghost var done: set<Id> := {};
    timers := map[];
    RecoveredNone(g, now);
    hide Recovered, RecoveryTimers, RecoveredAmong, TimersAmong, WellFormed, RecoveredOne, RecoveryTimer;
    while todo != {}
      invariant done !! todo && done + todo == g.tasks.Keys
      invariant graph.Valid() && graph.View() == g.(states := RecoveredAmong(g, done))
      invariant timers == TimersAmong(g, now, done)
    {
      var t := Least(todo);
      RecoverNext(g, done, t);
      TimersNext(g, now, done, t);
      timers := RecoverTask(graph, timers, t, now);
      todo, done := todo - {t}, done + {t};
    }
    RecoveredAll(g, now, done);
  }

  lemma TimersNext(g: Graph, now: Int64, done: set<Id>, t: Id)
    requires WellFormed(g) && t in g.tasks && t !in done
    ensures TimersAmong(g, now, done + {t})
            == RecoveryTimer(TimersAmong(g, now, done), g.(states := RecoveredAmong(g, done)), t, now)
  {
    RecoveredMore(g, done, t);
    hide RecoveredAmong;
  }

  // ----- the object -----

  function Unstarted(d: DurableState): Core {
    Core(EMPTY_GRAPH, map[], map[], map[], map[], map[], map[], {}, map[], map[], 0, d, d)
  }

  class Coordinator {
    const graph: TaskGraph
    const registry: ReservationRegistry
    var attempts: map<Id, seq<Attempt>>
    var taskReservation: map<Id, Id>
    var retryReadyAt: map<Id, int>
    var readyAt: map<Id, int>
    var dispatchAt: map<Id, int>
    var cancelRequested: set<Id>
    var nodes: map<Id, NodeRecord>
    var placements: map<Id, StoredPlacement>
    var placementSequence: U64
    var durable: DurableState
    /** What the store last wrote. */
    var disk: DurableState

    ghost function View(): Core reads this, graph, registry {
      Core(graph.View(), attempts, registry.reservations, taskReservation, retryReadyAt, readyAt, dispatchAt,
           cancelRequested, nodes, placements, placementSequence, durable, disk)
    }

    ghost predicate Valid() reads this, graph, registry {
      Inv(View())
    }

    /** A coordinator that has loaded `d` and not yet been started. */
    constructor (d: DurableState)
      ensures View() == Unstarted(d) && fresh(graph) && fresh(registry)
    {
      graph := new TaskGraph();
      registry := new ReservationRegistry();
      attempts, taskReservation, retryReadyAt, readyAt, dispatchAt := map[], map[], map[], map[], map[];
      cancelRequested, nodes, placements, placementSequence := {}, map[], map[], 0;
      durable, disk := d, d;
    }

    /** Come up on the loaded record under the next epoch. */
    method StartUp(now: Int64) returns (r: Outcome, saved: bool)
      requires View() == Unstarted(durable)
      modifies this, graph
      ensures match Start(old(disk), now, saved)
              case Ok(c) => r == Done && View() == c
              case Err(e) => r == Failed(e)
    {
      saved := false;
      durable := durable.(epoch := (durable.epoch + 1) % TWO_64);
      assert graph.Valid();
      hide Rebuild, Recovered, Restored, RecoveryTimers, Walk, Persist, WellFormed;
      r := RebuildGraph(graph, durable.tasks);
      if r == Done {
        saved := Resume(now);
      }
    }

    /** The rest of a start, once the graph has been rebuilt. */
    method Resume(now: Int64) returns (saved: bool)
      requires graph.Valid()
      modifies this, graph
      ensures var g, d := Restored(old(graph.View()), old(durable)), old(durable);
              View() == Persist(old(View()).(graph := Recovered(g), attempts := d.attempts,
                                             retryReadyAt := RecoveryTimers(g, now)), saved)
    {
      hide Recovered, Restored, RecoveryTimers, Persist, WellFormed;
      RestoreStates(graph, durable);
      attempts := durable.attempts;
      retryReadyAt := RecoverTasks(graph, now);
      saved := Save();
    }

    // ----- shared pieces -----

    method Save() returns (saved: bool)
      modifies this`durable, this`disk
      ensures View() == Persist(old(View()), saved)
    {
      var committed := CollectCommitted(attempts);
      var counts := CountAttempts(attempts);
      var list := ListPlacements(placements);
      durable := DurableState(durable.epoch, durable.workloads, graph.tasks, graph.states, committed, counts, list);
      saved := *;
      if saved {
        disk := durable;
      }
    }

    method ReleaseTaskReservation(t: Id)
      modifies this`taskReservation, registry
      ensures View() == ReleaseFor(old(View()), t)
    {
      if t in taskReservation {
        var _ := registry.ReleaseOne(taskReservation[t]);
        taskReservation := taskReservation - {t};
      } else {
        assert taskReservation - {t} == taskReservation;
      }
    }

    method Move(t: Id, s: TaskState) returns (r: Outcome)
      requires graph.Valid()
      modifies graph`states
      ensures graph.Valid() && View() == SetTask(old(View()), t, s)
      ensures r == Done <==> t in old(graph.states) && Lifecycle.IsLegal(old(graph.states)[t], s)
    {
      r := graph.SetTaskState(t, s);
    }

    method WakeIfSatisfied(d: Id, now: Int64) returns (woken: bool)
      requires graph.Valid()
      modifies this`readyAt, graph`states
      ensures graph.Valid()
      ensures woken <==> StateOf(old(graph.View()), d) == BLOCKED && Satisfied(old(graph.View()), d)
      ensures graph.View() == if woken then SetState(old(graph.View()), d, READY) else old(graph.View())
      ensures readyAt == if woken then old(readyAt)[d := now] else old(readyAt)
    {
      woken := false;
      if graph.State(d) == BLOCKED {
        woken := graph.DependenciesSatisfied(d);
        if woken {
          var _ := graph.SetTaskState(d, READY);
          readyAt := readyAt[d := now];
        }
      }
    }

    /** Ready the dependents of `id` that wait for nothing else. The failing of dependents
        of failed tasks, written here too, never takes effect. */
    method OnTaskSucceeded(id: Id, now: Int64)
      requires graph.Valid() && Inverse(graph.View()) && Acyclic(graph.deps) && id in graph.deps
      modifies this`readyAt, graph`states
      ensures graph.Valid() && graph.View() == MakeReady(old(graph.View()), Unblocked(old(graph.View()), id))
      ensures readyAt == Stamp(old(readyAt), Unblocked(old(graph.View()), id), now)
      decreases Downstream(graph.deps, id)
    {
      ghost var g := graph.View();
      ghost var ds: set<Id> := {};
      var todo := if id in graph.dependents then graph.dependents[id] else {};
      ghost var done: set<Id> := {};
      WakeNone(g, readyAt, now);
      hide Acyclic, Satisfied, Poisoned, SetState, Stamp, Unblocked;
      while todo != {}
        invariant Succ(g.dependents, id) == done + todo && done !! todo
        invariant ds == Unblocked(g, id) * done
        invariant graph.Valid() && graph.View() == MakeReady(g, ds)
        invariant readyAt == Stamp(old(readyAt), ds, now)
      {
        var d := Least(todo);
        Consider(g, id, done, d);
        var woken := WakeIfSatisfied(d, now);
        if woken {
          MakeReadyNext(g, ds, d);
          StampNext(old(readyAt), ds, d, now);
          ds := ds + {d};
        }
        var poisoned := graph.DependencyPoisoned(d);
        if poisoned && (graph.State(d) == BLOCKED || graph.State(d) == SUBMITTED) {
          PropagatePoison(d, now, id);
        }
        todo, done := todo - {d}, done + {d};
      }
      UnblockedWithin(g, id);
      assert Unblocked(g, id) * done == Unblocked(g, id);
    }

    /** Neither transition is legal for a waiting task, so the recursion changes nothing. */
    method PropagatePoison(d: Id, now: Int64, ghost id: Id)
      requires graph.Valid() && Inverse(graph.View()) && Acyclic(graph.deps)
      requires id in graph.deps && id in Succ(graph.deps, d)
      requires graph.State(d) == BLOCKED || graph.State(d) == SUBMITTED
      modifies this`readyAt, graph`states
      ensures graph.View() == old(graph.View()) && readyAt == old(readyAt)
      decreases Downstream(graph.deps, id), 0
    {
      PoisonIsIgnored(graph.View(), d);
      var _ := graph.SetTaskState(d, LOST);
      var _ := graph.SetTaskState(d, FAILED);
      DownstreamShrinks(graph.deps, id, d);
      NothingUnblocked(graph.View(), d);
      WakeNone(graph.View(), readyAt, now);
      OnTaskSucceeded(d, now);
    }

    /** The attempt with id `a`, wherever it is filed. */
    method Lookup(a: Id) returns (r: Option<Spot>)
      requires Valid()
      ensures r == None <==> !Known(attempts, a)
      ensures r.Some? ==> r.value == Find(attempts, a)
    {
      InvFacts(View());
      r := FindAttempt(attempts, a);
      if r.Some? {
        FoundIsFind(attempts, r.value, a);
      }
    }

    // ----- client requests -----

    method AllPresent(ids: seq<Id>) returns (b: bool)
      ensures b <==> forall d :: d in ids ==> d in graph.tasks
    {
      for i := 0 to |ids|
        invariant forall j :: 0 <= j < i ==> ids[j] in graph.tasks
      {
        if ids[i] !in graph.tasks {
          return false;
        }
      }
      return true;
    }

    /** The part of a submission after the task has entered the graph. */
    method Enter(task: ComputeTask, workloadId: Id, workloadName: Bytes, now: Int64) returns (saved: bool)
      requires graph.Valid()
      modifies this, graph`states
      ensures View() == Persist(
        old(View()).(graph := SetState(old(View()).graph, task.id, InitialState(task)),
                     durable := WithWorkload(old(View()).durable, workloadId, workloadName),
                     readyAt := old(View()).readyAt[task.id := now]), saved)
    {
      if workloadId !in durable.workloads {
        durable := durable.(workloads := durable.workloads[workloadId := Workload(workloadId, workloadName, map[])]);
      }
      var _ := graph.SetTaskState(task.id, if task.dependencies == [] then READY else BLOCKED);
      readyAt := readyAt[task.id := now];
      hide Persist, SetState;
      saved := Save();
    }

    method Admit(task: ComputeTask, workloadId: Id, workloadName: Bytes, now: Int64)
      returns (accepted: bool, saved: bool)
      requires graph.Valid() && task.id !in graph.tasks
      modifies this, graph
      ensures var c := old(View());
              var (g, r) := Added(c.graph, task);
              if r != Done then View() == c.(graph := g)
              else View() == Persist(c.(graph := SetState(g, task.id, InitialState(task)),
                                        durable := WithWorkload(c.durable, workloadId, workloadName),
                                        readyAt := c.readyAt[task.id := now]), saved)
      ensures accepted <==> task.id in graph.tasks
    {
      AcceptedIsPresent(graph.View(), task);
      hide WellFormed, Added, Persist, SetState, InitialState, WithWorkload;
      saved := false;
      var r := graph.AddTask(task);
      accepted := r == Done;
      if accepted {
        saved := Enter(task, workloadId, workloadName, now);
      }
    }

    method HandleTaskSubmit(task: ComputeTask, workloadId: Id, workloadName: Bytes, stopping: bool, now: Int64)
      returns (accepted: bool, saved: bool)
      requires Valid()
      modifies this, graph
      ensures View() == Submit(old(View()), task, workloadId, workloadName, stopping, now, saved)
      ensures accepted <==> task.id in graph.tasks
      ensures Valid()
    {
      ghost var c := View();
      InvFacts(c);
      saved, accepted := false, task.id in graph.tasks;
      hide Inv, WellFormed, Inverse, Acyclic, UniqueIds, Persist, SetState, Added, InitialState, WithWorkload;
      if !accepted && !stopping && task.id != ZERO_ID {
        var present := AllPresent(task.dependencies);
        if present {
          accepted, saved := Admit(task, workloadId, workloadName, now);
        }
      }
      SubmitInv(c, task, workloadId, workloadName, stopping, now, saved);
    }

    method FinishCancel(t: Id) returns (saved: bool)
      modifies this, registry
      ensures View() == Persist(ReleaseFor(old(View()), t).(cancelRequested := old(cancelRequested) - {t}), saved)
    {
      hide Persist, ReleasedBook;
      ReleaseTaskReservation(t);
      cancelRequested := cancelRequested - {t};
      saved := Save();
    }

    method RequestCancel(t: Id)
      modifies this`cancelRequested, this`attempts
      ensures View() == old(View()).(cancelRequested := old(cancelRequested) + {t},
                                     attempts := WithEntry(old(attempts), t))
    {
      cancelRequested := cancelRequested + {t};
      if t !in attempts {
        attempts := attempts[t := []];
      }
    }

    method HandleTaskCancel(t: Id) returns (found: bool, cancelled: bool, saved: bool)
      requires Valid()
      modifies this, graph, registry
      ensures View() == Cancel(old(View()), t, saved)
      ensures found <==> t in old(graph.tasks)
      ensures cancelled <==> found && !Lifecycle.IsTerminal(old(graph.State(t)))
                             && (old(graph.State(t)) == RUNNING || graph.State(t) == CANCELLED)
      ensures Valid()
    {
      ghost var c := View();
      InvFacts(c);
      saved, cancelled, found := false, false, t in graph.tasks;
      hide Inv, WellFormed, Inverse, Acyclic, UniqueIds, Persist, SetState, ReleaseFor, Lifecycle.IsLegal,
        Lifecycle.IsTerminal, WithEntry;
      if found && !Lifecycle.IsTerminal(graph.State(t)) {
        if graph.State(t) == RUNNING {
          RequestCancel(t);
          cancelled := true;
        } else {
          var r := Move(t, CANCELLED);
          if r == Done {
            saved := FinishCancel(t);
            cancelled := true;
          }
        }
      }
      CancelInv(c, t, saved);
    }

    // ----- attempt messages -----

    method StartFound(p: Spot, at: Attempt, t: Id) returns (saved: bool)
      requires graph.Valid() && p.task in attempts && p.index < |attempts[p.task]|
      modifies this, graph`states
      ensures View() == Persist(SetTask(old(View()).(attempts := Put(old(attempts), p, at)), t, RUNNING), saved)
    {
      hide Persist, SetTask;
      attempts := Put(attempts, p, at);
      var _ := Move(t, RUNNING);
      saved := Save();
    }

    method HandleAttemptStarted(a: Id, startedAt: Int64, device: Bytes) returns (saved: bool)
      requires Valid()
      modifies this, graph
      ensures View() == StartAttempt(old(View()), a, startedAt, device, saved)
      ensures Valid()
    {
      ghost var c := View();
      InvFacts(c);
      hide Inv, WellFormed, Inverse, Acyclic, UniqueIds, Persist, SetTask, Known;
      saved := false;
      var found := Lookup(a);
      if found.Some? {
        var p := found.value;
        var at := attempts[p.task][p.index];
        if at.epoch == durable.epoch {
          saved := StartFound(p, at.(state := ATTEMPT_STARTED, startedAtMs := startedAt, device := device), at.taskId);
        }
      }
      StartAttemptInv(c, a, startedAt, device, saved);
    }

    /** Release what the task holds and move it on: to a retry after its back-off, or to failure. */
    method FailFound(p: Spot, kind: FailureKind, reason: Bytes, now: Int64) returns (saved: bool)
      requires graph.Valid() && p.task in attempts && p.index < |attempts[p.task]|
      modifies this, graph`states, registry
      ensures View() == FailAt(old(View()), p, kind, reason, now, saved)
    {
      hide Persist, ReleaseFor, MayRetry, SetState;
      saved := false;
      var at := attempts[p.task][p.index];
      if at.epoch == durable.epoch && at.state != ATTEMPT_SUCCEEDED && !at.committed {
        attempts := Put(attempts, p, at.(state := ATTEMPT_FAILED, failureKind := kind, failureReason := reason,
                                         completedAtMs := now));
        ReleaseTaskReservation(at.taskId);
        RetryOrFail(at.taskId, at.attemptNumber, kind, now);
        saved := Save();
      }
    }

    method RetryOrFail(t: Id, attemptNumber: U32, kind: FailureKind, now: Int64)
      requires graph.Valid()
      modifies this`retryReadyAt, graph`states
      ensures var g := old(graph.View());
              var retries := t in g.tasks && MayRetry(g.tasks[t], attemptNumber, kind) && StateOf(g, t) != SUCCEEDED;
              && graph.View() == SetState(g, t, if retries then RETRY_PENDING else FAILED)
              && retryReadyAt == StartBackoff(old(retryReadyAt), g, t, retries, now)
    {
      hide MayRetry;
      var canRetry := t in graph.tasks && MayRetry(graph.tasks[t], attemptNumber, kind);
      if graph.State(t) != SUCCEEDED {
        if canRetry {
          var _ := graph.SetTaskState(t, RETRY_PENDING);
          retryReadyAt := retryReadyAt[t := now + AsInt64(graph.tasks[t].retry.retryBackoffMs)];
        } else {
          var _ := graph.SetTaskState(t, FAILED);
        }
      }
    }

    method HandleAttemptFailed(a: Id, kind: FailureKind, reason: Bytes, now: Int64) returns (saved: bool)
      requires Valid()
      modifies this, graph, registry
      ensures View() == FailAttempt(old(View()), a, kind, reason, now, saved)
      ensures Valid()
    {
      ghost var c := View();
      InvFacts(c);
      hide Inv, WellFormed, Inverse, Acyclic, UniqueIds, Known, FailAt;
      saved := false;
      var found := Lookup(a);
      if found.Some? {
        saved := FailFound(found.value, kind, reason, now);
      }
      FailAttemptInv(c, a, kind, reason, now, saved);
    }

    method CancelFound(p: Spot, at: Attempt) returns (saved: bool)
      requires graph.Valid() && p.task in attempts && p.index < |attempts[p.task]|
      modifies this, graph`states, registry
      ensures View() == Persist(SetTask(ReleaseFor(old(View()).(attempts := Put(old(attempts), p, at)), at.taskId),
                                        at.taskId, PREEMPTED), saved)
    {
      hide Persist, ReleaseFor, SetTask;
      attempts := Put(attempts, p, at);
      ReleaseTaskReservation(at.taskId);
      var _ := Move(at.taskId, PREEMPTED);
      saved := Save();
    }

    method HandleAttemptCancelled(a: Id, reason: Bytes, now: Int64) returns (saved: bool)
      requires Valid()
      modifies this, graph, registry
      ensures View() == CancelledByNode(old(View()), a, reason, now, saved)
      ensures Valid()
    {
      ghost var c := View();
      InvFacts(c);
      hide Inv, WellFormed, Inverse, Acyclic, UniqueIds, Persist, SetTask, ReleaseFor, Known;
      saved := false;
      var found := Lookup(a);
      if found.Some? {
        var p := found.value;
        var at := attempts[p.task][p.index];
        if at.epoch == durable.epoch {
          saved := CancelFound(p, at.(state := ATTEMPT_CANCELLED, failureKind := FAILURE_CANCELLED,
                                      failureReason := reason, completedAtMs := now));
        }
      }
      CancelledByNodeInv(c, a, reason, now, saved);
    }

    method RejectCancelled(p: Spot, at: Attempt) returns (saved: bool)
      requires graph.Valid() && p.task in attempts && p.index < |attempts[p.task]|
      modifies this, graph`states, registry
      ensures View() == Persist(ReleaseFor(SetTask(old(View()).(attempts := Put(old(attempts), p, at)), at.taskId,
                                                   PREEMPTED), at.taskId), saved)
    {
      hide Persist, ReleaseFor, SetTask;
      attempts := Put(attempts, p, at);
      var _ := Move(at.taskId, PREEMPTED);
      ReleaseTaskReservation(at.taskId);
      saved := Save();
    }

    method Succeed(t: Id, now: Int64)
      requires graph.Valid() && Inverse(graph.View()) && Acyclic(graph.deps) && t in graph.deps
      modifies this, graph`states, registry
      ensures var c1 := ReleaseFor(SetTask(old(View()), t, SUCCEEDED), t);
              View() == Unblock(c1.(cancelRequested := c1.cancelRequested - {t}), t, now)
    {
      hide Acyclic, ReleasedBook, MakeReady, Unblocked, Stamp;
      var _ := Move(t, SUCCEEDED);
      ReleaseTaskReservation(t);
      cancelRequested := cancelRequested - {t};
      OnTaskSucceeded(t, now);
    }

    /** Commit the attempt and let its task's dependents go. */
    method Commit(p: Spot, at: Attempt, out: Output, now: Int64) returns (saved: bool)
      requires graph.Valid() && Inverse(graph.View()) && Acyclic(graph.deps) && at.taskId in graph.tasks
      requires p.task in attempts && p.index < |attempts[p.task]|
      modifies this, graph`states, registry
      ensures var c1 := old(View()).(attempts := Put(old(attempts), p, CommittedAttempt(at, out, now)));
              var c2 := ReleaseFor(SetTask(c1, at.taskId, SUCCEEDED), at.taskId);
              View() == Persist(Unblock(c2.(cancelRequested := c2.cancelRequested - {at.taskId}), at.taskId, now), saved)
    {
      attempts := Put(attempts, p, CommittedAttempt(at, out, now));
      Succeed(at.taskId, now);
      hide Persist, ReleaseFor, SetTask, Unblock, WellFormed, Inverse, Acyclic;
      saved := Save();
    }

    method CompleteFound(p: Spot, reservation: Id, out: Output, now: Int64) returns (accepted: bool, saved: bool)
      requires graph.Valid() && Inverse(graph.View()) && Acyclic(graph.deps)
      requires p.task in attempts && p.index < |attempts[p.task]| && attempts[p.task][p.index].taskId in graph.tasks
      modifies this, graph`states, registry
      ensures View() == CompleteAt(old(View()), p, reservation, out, now, saved)
      ensures var at := old(attempts)[p.task][p.index];
              accepted <==> at.committed
                            || (CompletionValid(old(View()), at, reservation) && at.taskId !in old(cancelRequested))
    {
      hide WellFormed, Inverse, Acyclic, Persist, SetTask, ReleaseFor, Unblock, CommittedAttempt;
      saved, accepted := false, false;
      var at := attempts[p.task][p.index];
      if at.committed {
        accepted := true;
      } else if at.taskId in cancelRequested {
        saved := RejectCancelled(p, at.(state := ATTEMPT_CANCELLED, failureKind := FAILURE_CANCELLED,
                                        failureReason := CANCELLED_TEXT, completedAtMs := now));
      } else if at.epoch == durable.epoch && (at.state == ATTEMPT_STARTED || at.state == ATTEMPT_DISPATCHED)
                && at.reservationId == reservation
                && (graph.State(at.taskId) == RUNNING || graph.State(at.taskId) == DISPATCHING) {
        saved := Commit(p, at, out, now);
        accepted := true;
      }
    }

    method HandleAttemptComplete(a: Id, reservation: Id, out: Output, now: Int64)
      returns (accepted: bool, saved: bool)
      requires Valid()
      modifies this, graph, registry
      ensures View() == CompleteAttempt(old(View()), a, reservation, out, now, saved)
      ensures accepted <==> Commits(old(View()), a, reservation)
                            || (Known(old(attempts), a) && var p := Find(old(attempts), a);
                                old(attempts)[p.task][p.index].committed)
      ensures Valid()
    {
      ghost var c := View();
      InvFacts(c);
      hide Inv, WellFormed, Inverse, Acyclic, UniqueIds, Known, CompleteAt, CompletionValid;
      saved, accepted := false, false;
      var found := Lookup(a);
      if found.Some? {
        accepted, saved := CompleteFound(found.value, reservation, out, now);
      }
      CompleteAttemptInv(c, a, reservation, out, now, saved);
    }

    method HandleReservationRelease(r: Id)
      requires Valid()
      modifies registry
      ensures Valid() && View() == ReleaseByNode(old(View()), r)
    {
      ReleaseByNodeInv(View(), r);
      if r in registry.reservations && registry.reservations[r].epoch == durable.epoch {
        var _ := registry.ReleaseOne(r);
      }
    }

    // ----- nodes -----

    method UpdateNode(n: Id, news: NodeNews, now: Int64)
      modifies this`nodes
      ensures nodes == NodesAfter(old(nodes), durable.epoch, n, news, now)
    {
      match news {
        case Registers(capacity, session, same) =>
          if !(n in nodes && nodes[n].connected && same) {
            var sessionEpoch: U64 := if n in nodes then (nodes[n].sessionEpoch + 1) % TWO_64 else 1;
            nodes := nodes[n := NodeRecord(n, session, durable.epoch, sessionEpoch, Online, capacity, now, true)];
          }
        case Heartbeats(session, sessionEpoch, epoch) =>
          if n in nodes && nodes[n].session == session && nodes[n].sessionEpoch == sessionEpoch
             && epoch == durable.epoch {
            nodes := nodes[n := nodes[n].(lastHeartbeatMs := now, health := Online)];
          }
        case Drains(drain) =>
          if n in nodes && nodes[n].health != Offline {
            nodes := nodes[n := nodes[n].(health := if drain then Draining else Online)];
          }
        case Disconnects(connection, timeoutMs) =>
          if connection && n in nodes && nodes[n].health != Offline {
            nodes := nodes[n := nodes[n].(connected := false, lastHeartbeatMs := now - timeoutMs + 100)];
          }
      }
    }

    method HandleNodeNews(n: Id, news: NodeNews, now: Int64)
      requires Valid()
      modifies this`nodes
      ensures View() == NodeUpdate(old(View()), n, news, now)
      ensures Valid()
    {
      ghost var c := View();
      NodeUpdateIsIdle(c, n, news, now);
      IdleInv(c, NodeUpdate(c, n, news, now));
      hide Inv, Idle, NodesAfter;
      UpdateNode(n, news, now);
    }

    method MarkLost(t: Id, now: Int64)
      requires graph.Valid() && t in graph.tasks
      modifies this`retryReadyAt, graph`states
      ensures graph.Valid() && graph.View() == LostGraph(old(graph.View()), t)
      ensures retryReadyAt == StartBackoff(old(retryReadyAt), old(graph.View()), t, RetriesAfterLoss(graph.tasks[t]), now)
    {
      hide SetState;
      var canRetry := RetriesAfterLoss(graph.tasks[t]);
      var _ := graph.SetTaskState(t, LOST);
      if canRetry {
        var _ := graph.SetTaskState(t, RETRY_PENDING);
        retryReadyAt := retryReadyAt[t := now + AsInt64(graph.tasks[t].retry.retryBackoffMs)];
      } else {
        var _ := graph.SetTaskState(t, FAILED);
      }
    }

    method LoseOne(t: Id, now: Int64)
      requires graph.Valid()
      modifies this`retryReadyAt, this`taskReservation, graph`states, registry
      ensures graph.Valid() && View() == LoseTask(old(View()), t, now)
    {
      if t in graph.tasks {
        hide WellFormed, LostGraph, StartBackoff, ReleasedBook;
        MarkLost(t, now);
        ReleaseTaskReservation(t);
      }
    }

    method LoseAll(ts: seq<Id>, now: Int64)
      requires graph.Valid()
      modifies this`retryReadyAt, this`taskReservation, graph`states, registry
      ensures graph.Valid() && View() == LoseTasks(old(View()), ts, now)
    {
      ghost var c := View();
      hide WellFormed, LoseTask;
      for i := 0 to |ts|
        invariant graph.Valid()
        invariant LoseTasks(View(), ts[i..], now) == LoseTasks(c, ts, now)
      {
        assert ts[i..][0] == ts[i] && ts[i..][1..] == ts[i + 1..];
        LoseOne(ts[i], now);
      }
    }

    method HandleNodeLoss(n: Id, now: Int64) returns (saved: bool)
      requires Valid()
      modifies this, graph`states, registry
      ensures View() == LoseNode(old(View()), n, now, saved)
      ensures Valid()
    {
      ghost var c := View();
      InvFacts(c);
      hide Inv, WellFormed, Inverse, Acyclic, UniqueIds, Persist, LoseTasks, ReleaseScope, LiveIn, Affected;
      saved := false;
      if n in nodes && nodes[n].health != Offline {
        nodes := nodes[n := nodes[n].(health := Offline, connected := false)];
        var _ := registry.ReleaseMany(OfNode(n));
        var affected := CollectAffected(attempts, n);
        LoseAll(affected, now);
        saved := Save();
      }
      LoseNodeInv(c, n, now, saved);
    }

    // ----- the sweep -----

    method RequeueOne(t: Id, now: Int64) returns (saved: bool)
      requires Valid() && DispatchTimedOut(View(), t, now)
      modifies this, graph`states, registry
      ensures View() == Requeue(old(View()), t, now, saved)
      ensures Valid()
    {
      ghost var c := View();
      InvFacts(c);
      hide Inv, WellFormed, Inverse, Acyclic, UniqueIds, Persist, ReleaseFor, SetTask;
      ReleaseTaskReservation(t);
      var _ := Move(t, READY);
      readyAt := readyAt[t := now];
      saved := Save();
      RequeueInv(c, t, now, saved);
    }

    method RetryOne(t: Id, now: Int64) returns (saved: bool)
      requires Valid()
      modifies this, graph`states
      ensures View() == Retry(old(View()), t, now, saved)
      ensures Valid()
    {
      ghost var c := View();
      InvFacts(c);
      hide Inv, WellFormed, Inverse, Acyclic, UniqueIds, Persist, SetState;
      saved := false;
      if t in retryReadyAt && graph.State(t) == RETRY_PENDING && retryReadyAt[t] <= now {
        var _ := Move(t, READY);
        readyAt := readyAt[t := now];
        saved := Save();
      }
      RetryInv(c, t, now, saved);
    }

    method ExpireNow(t: Id) returns (saved: bool)
      requires graph.Valid()
      modifies this, graph`states, registry
      ensures View() == Persist(SetTask(ReleaseFor(old(View()), t), t, EXPIRED), saved)
    {
      hide Persist, SetTask, ReleaseFor;
      ReleaseTaskReservation(t);
      var _ := Move(t, EXPIRED);
      saved := Save();
    }

    method ExpireOne(t: Id, now: Int64) returns (saved: bool)
      requires Valid()
      modifies this, graph`states, registry
      ensures View() == Expire(old(View()), t, now, saved)
      ensures Valid()
    {
      ghost var c := View();
      InvFacts(c);
      hide Inv, WellFormed, Inverse, Acyclic, UniqueIds, Persist, SetTask, ReleaseFor;
      saved := false;
      if t in graph.tasks && graph.tasks[t].hasDeadline && now >= graph.tasks[t].deadlineMs
         && (graph.State(t) == READY || graph.State(t) == BLOCKED || graph.State(t) == RETRY_PENDING) {
        saved := ExpireNow(t);
      }
      ExpireInv(c, t, now, saved);
    }

    // ----- scheduling -----

    method FileAttempt(t: Id, ch: Choice, at: Attempt, now: Int64)
      modifies this`taskReservation, this`attempts, this`dispatchAt
      ensures View() == old(View()).(taskReservation := old(taskReservation)[t := ch.reservation],
                                     attempts := old(attempts)[t := AttemptsOf(old(attempts), t) + [at]],
                                     dispatchAt := old(dispatchAt)[t := now])
    {
      taskReservation := taskReservation[t := ch.reservation];
      attempts := attempts[t := AttemptsOf(attempts, t) + [at]];
      dispatchAt := dispatchAt[t := now];
    }

    /** Record what was reserved for a ready task and send it out. */
    method DispatchTo(t: Id, n: NodeRecord, e: ExecutorType, ch: Choice, now: Int64, ghost c: Core)
      returns (saved: bool)
      requires graph.Valid() && t in graph.tasks && graph.State(t) == READY && t in c.graph.tasks
      requires var task := c.graph.tasks[t];
               View() == c.(reservations := c.reservations[ch.reservation :=
                 Fresh(ch.reservation, n, Epoch(c), t, e, SlotsFor(task, e), task.scratchMemoryBytes, now)])
      modifies this, graph`states
      ensures View() == Persist(Dispatch(c, t, n, e, ch, now), saved)
    {
      hide WellFormed, Persist, SetState, Fresh, SlotsFor, NewAttempt, AttemptsOf;
      var _ := graph.SetTaskState(t, PLANNING);
      var _ := graph.SetTaskState(t, RESERVED);
      FileAttempt(t, ch, NewAttempt(durable.epoch, |AttemptsOf(attempts, t)|, t, n, e, ch, now), now);
      var _ := graph.SetTaskState(t, DISPATCHING);
      assert View() == Dispatch(c, t, n, e, ch, now);
      hide Dispatch;
      saved := Save();
    }

    method Place(t: Id, ch: Choice, now: Int64) returns (saved: bool)
      requires graph.Valid() && t in graph.tasks && graph.State(t) == READY
      requires graph.tasks[t].hasDeadline ==> now < graph.tasks[t].deadlineMs
      modifies this, graph`states, registry
      ensures View() == Schedule(old(View()), t, ch, now, saved)
    {
      saved := false;
      placementSequence := (placementSequence + 1) % TWO_64;
      placements := placements[t := StoredPlacement(t, placementSequence, ch.decision)];
      ghost var c1 := View();
      assert c1 == RecordPlacement(old(View()), t, ch.decision);
      hide RecordPlacement, Persist, Dispatch, Refusals;
      if ch.decision.feasible && ch.decision.chosenNode.Some? && ch.decision.chosenNode.value in nodes
         && nodes[ch.decision.chosenNode.value].connected {
        var n := nodes[ch.decision.chosenNode.value];
        var task := graph.tasks[t];
        var e := ChosenExecutor(task, ch.decision);
        var g := registry.TryReserve(n, durable.epoch, t, e, SlotsFor(task, e), task.scratchMemoryBytes, ch.reservation,
                                     now);
        if g.Granted? {
          saved := DispatchTo(t, n, e, ch, now, c1);
        }
      }
    }

    method ExpireReady(t: Id) returns (saved: bool)
      requires graph.Valid()
      modifies this, graph`states
      ensures View() == Persist(SetTask(old(View()), t, EXPIRED), saved)
    {
      hide Persist, SetTask;
      var _ := Move(t, EXPIRED);
      saved := Save();
    }

    method ScheduleOne(t: Id, ch: Choice, now: Int64) returns (saved: bool)
      requires Valid() && ch.reservation !in registry.reservations && !Known(attempts, ch.attempt)
      modifies this, graph`states, registry
      ensures View() == Schedule(old(View()), t, ch, now, saved)
      ensures Valid()
    {
      ghost var c := View();
      InvFacts(c);
      saved := false;
      hide Inv, WellFormed, Inverse, Acyclic, UniqueIds, Persist, SetTask, Dispatch, Refusals, Known;
      if t in graph.tasks && graph.State(t) == READY {
        var task := graph.tasks[t];
        if task.hasDeadline && now >= task.deadlineMs {
          saved := ExpireReady(t);
        } else {
          saved := Place(t, ch, now);
        }
      }
      ScheduleInv(c, t, ch, now, saved);
    }

    /** Place the given tasks in turn; a stop observed on the way ends the round. */
    method PlaceAll(ids: seq<Id>, choose: Id -> Choice, now: Int64) returns (ghost run: seq<Event>)
      requires Valid() && Distinct(ids) && FreshChoices(View(), choose, Elements(ids))
      modifies this, graph`states, registry
      ensures Valid() && Leads(old(View()), run, View())
      ensures |run| <= |ids|
      ensures forall i :: 0 <= i < |run| ==> run[i].step == DoSchedule(ids[i], choose(ids[i])) && run[i].now == now
    {
      ghost var c := View();
      run := [];
      assert ids[0..] == ids;
      for i := 0 to |ids|
        invariant Valid() && Leads(c, run, View())
        invariant |run| == i
        invariant forall j :: 0 <= j < i ==> run[j].step == DoSchedule(ids[j], choose(ids[j])) && run[j].now == now
        invariant FreshChoices(View(), choose, Elements(ids[i..]))
      {
        RestOf(ids, i);
        hide Inv, Schedule, Known, Leads, Next, Elements, Distinct, UsesOnly;
        var stopping := *;
        if stopping {
          return;
        }
        ghost var before := View();
        var saved := ScheduleOne(ids[i], choose(ids[i]), now);
        StillFresh(before, choose, Elements(ids[i..]), ids[i], now, saved);
        ghost var e := Event(DoSchedule(ids[i], choose(ids[i])), now, saved);
        ScheduleEvent(before, ids[i], choose(ids[i]), now, saved);
        LeadsOn(c, run, before, e);
        run := run + [e];
      }
    }

    method ScheduleReadyTasks(choose: Id -> Choice, now: Int64) returns (ghost order: seq<Id>, ghost run: seq<Event>)
      requires Valid() && FreshChoices(View(), choose, graph.tasks.Keys)
      modifies this, graph`states, registry
      ensures Valid() && Leads(old(View()), run, View())
      ensures IsRound(old(View()), run, order, choose, now)
    {
      hide Inv, Leads, InPlacingOrder, Distinct;
      var ids := ListReady();
      order := ids;
      PlacingOrderIsDistinct(graph.tasks, readyAt, ids);
      hide TaskStateOf;
      run := PlaceAll(ids, choose, now);
    }

    method ListReady() returns (ids: seq<Id>)
      ensures InPlacingOrder(View().graph.tasks, View().readyAt, ids)
      ensures Elements(ids) == (set t | t in View().graph.tasks && TaskStateOf(View(), t) == READY)
    {
      var ready := set t | t in graph.tasks && graph.State(t) == READY;
      ids := SortReady(graph.tasks, readyAt, ready);
    }

    // ----- the sweep -----

    method LoseEach(ids: seq<Id>, now: Int64) returns (ghost run: seq<Event>)
      requires Valid()
      modifies this, graph`states, registry
      ensures Valid() && Sweeps(old(View()), run, View()) && Covers(run, ids, Loss, now)
    {
      ghost var c := View();
      SweepsNowhere(c);
      hide Inv, Sweeps, Covers, LoseNode;
      run := [];
      CoversNone(ids, Loss, now);
      for i := 0 to |ids|
        invariant Valid() && Sweeps(c, run, View()) && Covers(run, ids[..i], Loss, now)
      {
        ghost var before := View();
        var saved := HandleNodeLoss(ids[i], now);
        LoseNodeOn(c, run, before, ids[i], now, saved);
        CoversNext(run, ids, Loss, i, Event(DoLoseNode(ids[i]), now, saved));
        run := run + [Event(DoLoseNode(ids[i]), now, saved)];
      }
      assert ids[..|ids|] == ids;
    }

    method LoseOverdue(timeoutMs: int, now: Int64) returns (ghost run: seq<Event>)
      requires Valid()
      modifies this, graph`states, registry
      ensures Valid() && Sweeps(old(View()), run, View())
      ensures Covers(run, Walk(OverdueNodes(old(nodes), timeoutMs, now)), Loss, now)
    {
      var lost := set n | n in nodes && Overdue(nodes[n], timeoutMs, now);
      assert lost == OverdueNodes(nodes, timeoutMs, now);
      hide Inv, Sweeps, Covers, OverdueNodes, Overdue, Walk;
      run := LoseEach(Walk(lost), now);
    }

    method RequeueFirst(ids: seq<Id>, now: Int64) returns (saved: bool)
      requires Valid() && ids != [] && AllTimedOut(View(), ids, now)
      modifies this, graph`states, registry
      ensures Valid() && View() == Requeue(old(View()), ids[0], now, saved) && AllTimedOut(View(), ids[1..], now)
    {
      ghost var before := View();
      FirstTimedOut(before, ids, now);
      hide Inv, DispatchTimedOut, Requeue, AllTimedOut;
      saved := RequeueOne(ids[0], now);
      OthersTimedOut(before, ids, now, saved);
    }

    method RequeueEach(ids: seq<Id>, now: Int64) returns (ghost run: seq<Event>)
      requires Valid() && AllTimedOut(View(), ids, now)
      modifies this, graph`states, registry
      ensures Valid() && Sweeps(old(View()), run, View()) && Covers(run, ids, Stale, now)
    {
      ghost var c := View();
      SweepsNowhere(c);
      hide Inv, Sweeps, Covers, AllTimedOut, Requeue;
      run := [];
      CoversNone(ids, Stale, now);
      assert ids[0..] == ids;
      for i := 0 to |ids|
        invariant Valid() && Sweeps(c, run, View()) && Covers(run, ids[..i], Stale, now)
        invariant AllTimedOut(View(), ids[i..], now)
      {
        ghost var before := View();
        assert ids[i..][0] == ids[i] && ids[i..][1..] == ids[i + 1..];
        var saved := RequeueFirst(ids[i..], now);
        RequeueOn(c, run, before, ids[i], now, saved);
        CoversNext(run, ids, Stale, i, Event(DoRequeue(ids[i]), now, saved));
        run := run + [Event(DoRequeue(ids[i]), now, saved)];
      }
      assert ids[..|ids|] == ids;
    }

    method RequeueStale(now: Int64) returns (ghost run: seq<Event>)
      requires Valid()
      modifies this, graph`states, registry
      ensures Valid() && Sweeps(old(View()), run, View())
      ensures Covers(run, Walk(StaleTasks(old(View()), now)), Stale, now)
    {
      var stale := set t | t in dispatchAt && graph.State(t) == DISPATCHING
                           && now - dispatchAt[t] > DISPATCH_TIMEOUT_MS;
      assert stale == StaleTasks(View(), now);
      StaleTimedOut(View(), now);
      hide Inv, Sweeps, Covers, StaleTasks, AllTimedOut, Walk;
      run := RequeueEach(Walk(stale), now);
    }

    method RetryEach(ids: seq<Id>, now: Int64) returns (ghost run: seq<Event>)
      requires Valid()
      modifies this, graph`states
      ensures Valid() && Sweeps(old(View()), run, View()) && Covers(run, ids, Backoff, now)
    {
      ghost var c := View();
      SweepsNowhere(c);
      hide Inv, Sweeps, Covers, Retry;
      run := [];
      CoversNone(ids, Backoff, now);
      for i := 0 to |ids|
        invariant Valid() && Sweeps(c, run, View()) && Covers(run, ids[..i], Backoff, now)
      {
        ghost var before := View();
        var saved := RetryOne(ids[i], now);
        RetryOn(c, run, before, ids[i], now, saved);
        CoversNext(run, ids, Backoff, i, Event(DoRetry(ids[i]), now, saved));
        run := run + [Event(DoRetry(ids[i]), now, saved)];
      }
      assert ids[..|ids|] == ids;
    }

    method ExpireEach(ids: seq<Id>, now: Int64) returns (ghost run: seq<Event>)
      requires Valid()
      modifies this, graph`states, registry
      ensures Valid() && Sweeps(old(View()), run, View()) && Covers(run, ids, Deadline, now)
    {
      ghost var c := View();
      SweepsNowhere(c);
      hide Inv, Sweeps, Covers, Expire;
      run := [];
      CoversNone(ids, Deadline, now);
      for i := 0 to |ids|
        invariant Valid() && Sweeps(c, run, View()) && Covers(run, ids[..i], Deadline, now)
      {
        ghost var before := View();
        var saved := ExpireOne(ids[i], now);
        ExpireOn(c, run, before, ids[i], now, saved);
        CoversNext(run, ids, Deadline, i, Event(DoExpire(ids[i]), now, saved));
        run := run + [Event(DoExpire(ids[i]), now, saved)];
      }
      assert ids[..|ids|] == ids;
    }

    /** The periodic sweep is a run of single steps, so what holds of every run holds of it,
        and of a crash anywhere within it: overdue nodes are lost, stale dispatches requeued,
        due retries and deadlines taken up, and the ready tasks placed, in this order. */
    method Sweep(timeoutMs: int, choose: Id -> Choice, now: Int64) returns (ghost run: seq<Event>, ghost parts: SweepParts)
      requires Valid() && FreshChoices(View(), choose, graph.tasks.Keys)
      modifies this, graph`states, registry
      ensures Valid() && Leads(old(View()), run, View())
      ensures run == parts.lost + parts.stale + parts.retried + parts.expired + parts.placed
      ensures IsSweep(old(View()), parts, timeoutMs, choose, now)
    {
      ghost var c := View();
      hide Inv, Sweeps, Leads, FreshChoices, Walk, InPlacingOrder, Elements, StaleTasks, OverdueNodes, Covers,
        IsRound;
      ghost var lost := LoseOverdue(timeoutMs, now);
      ghost var c1 := View();
      ghost var stale := RequeueStale(now);
      ghost var c2 := View();
      SweepsThrough(c, lost, c1, stale, c2);
      ghost var retried := RetryEach(Walk(retryReadyAt.Keys), now);
      ghost var c3 := View();
      SweepsThrough(c, lost + stale, c2, retried, c3);
      ghost var expired := ExpireEach(Walk(graph.tasks.Keys), now);
      ghost var c4 := View();
      SweepsThrough(c, lost + stale + retried, c3, expired, c4);
      SweptFresh(c, lost + stale + retried + expired, c4, choose);
      ghost var order, placed := ScheduleReadyTasks(choose, now);
      SweptThenPlaced(c, lost + stale + retried + expired, c4, placed, View());
      parts := SweepParts(lost, stale, retried, expired, placed, c1, c2, c3, c4, order);
      run := lost + stale + retried + expired + placed;
    }
  }

  /** What a stretch of the sweep looks after. */
  datatype Concern = Loss | Stale | Backoff | Deadline

  function StepFor(k: Concern, id: Id): Step {
    match k
    case Loss => DoLoseNode(id)
    case Stale => DoRequeue(id)
    case Backoff => DoRetry(id)
    case Deadline => DoExpire(id)
  }

  /** The run takes the step of concern `k` for each of `ids` in turn, at time `now`. */
  ghost predicate Covers(run: seq<Event>, ids: seq<Id>, k: Concern, now: Int64) {
    |run| == |ids| && forall i :: 0 <= i < |ids| ==> run[i].step == StepFor(k, ids[i]) && run[i].now == now
  }

  lemma CoversNone(ids: seq<Id>, k: Concern, now: Int64)
    ensures Covers([], ids[..0], k, now)
  {
  }

  lemma CoversNext(run: seq<Event>, ids: seq<Id>, k: Concern, i: nat, e: Event)
    requires i < |ids| && Covers(run, ids[..i], k, e.now) && e.step == StepFor(k, ids[i])
    ensures Covers(run + [e], ids[..i + 1], k, e.now)
  {
  }

  ghost function OverdueNodes(nodes: map<Id, NodeRecord>, timeoutMs: int, now: Int64): set<Id> {
    set n | n in nodes && Overdue(nodes[n], timeoutMs, now)
  }

  ghost function StaleTasks(c: Core, now: Int64): set<Id> {
    set t | t in c.dispatchAt && DispatchTimedOut(c, t, now)
  }

  ghost predicate AllTimedOut(c: Core, ids: seq<Id>, now: Int64) {
    Ascending(ids) && forall t :: t in ids ==> DispatchTimedOut(c, t, now)
  }

  lemma StaleTimedOut(c: Core, now: Int64)
    ensures AllTimedOut(c, Walk(StaleTasks(c, now)), now)
    ensures Walk(StaleTasks(c, now))[0..] == Walk(StaleTasks(c, now))
  {
  }

  lemma FirstTimedOut(c: Core, ids: seq<Id>, now: Int64)
    requires ids != [] && AllTimedOut(c, ids, now)
    ensures DispatchTimedOut(c, ids[0], now)
  {
  }

  lemma OthersTimedOut(c: Core, ids: seq<Id>, now: Int64, saved: bool)
    requires ids != [] && AllTimedOut(c, ids, now)
    ensures AllTimedOut(Requeue(c, ids[0], now, saved), ids[1..], now)
  {
    hide Requeue, DispatchTimedOut;
    forall t | t in ids[1..] ensures DispatchTimedOut(Requeue(c, ids[0], now, saved), t, now) {
      RequeueFrame(c, ids[0], t, now, saved);
    }
  }

  lemma SweptThenPlaced(c: Core, run: seq<Event>, c1: Core, more: seq<Event>, c2: Core)
    requires Sweeps(c, run, c1) && Leads(c1, more, c2)
    ensures Leads(c, run + more, c2)
  {
    hide Leads;
    LeadsThrough(c, run, c1, more, c2);
  }

  /** The five stretches of a sweep and the states between them. */
  datatype SweepParts = SweepParts(
    lost: seq<Event>, stale: seq<Event>, retried: seq<Event>, expired: seq<Event>, placed: seq<Event>,
    c1: Core, c2: Core, c3: Core, c4: Core, order: seq<Id>)

  ghost predicate IsSweep(c: Core, p: SweepParts, timeoutMs: int, choose: Id -> Choice, now: Int64) {
    && Sweeps(c, p.lost, p.c1) && Covers(p.lost, Walk(OverdueNodes(c.nodes, timeoutMs, now)), Loss, now)
    && Sweeps(p.c1, p.stale, p.c2) && Covers(p.stale, Walk(StaleTasks(p.c1, now)), Stale, now)
    && Sweeps(p.c2, p.retried, p.c3) && Covers(p.retried, Walk(p.c2.retryReadyAt.Keys), Backoff, now)
    && Sweeps(p.c3, p.expired, p.c4) && Covers(p.expired, Walk(p.c3.graph.tasks.Keys), Deadline, now)
    && IsRound(p.c4, p.placed, p.order, choose, now)
  }

  /** A round of placements: ready tasks in order, all of them unless a stop cuts it short. */
  ghost predicate IsRound(c: Core, run: seq<Event>, order: seq<Id>, choose: Id -> Choice, now: Int64) {
    && InPlacingOrder(c.graph.tasks, c.readyAt, order)
    && Elements(order) == (set t | t in c.graph.tasks && TaskStateOf(c, t) == READY)
    && |run| <= |order|
    && forall i :: 0 <= i < |run| ==> run[i].step == DoSchedule(order[i], choose(order[i])) && run[i].now == now
  }

  /** A node whose last heartbeat is too old; one that is already offline only counts
      while its connection is open. */
  predicate Overdue(rec: NodeRecord, timeoutMs: int, now: Int64) {
    now - rec.lastHeartbeatMs > timeoutMs && (rec.connected || rec.health != Offline)
  }

  /** Whether `d` is to be made ready can be read off the current graph. */
  lemma Consider(g: Graph, t: Id, done: set<Id>, d: Id)
    requires d in Succ(g.dependents, t) && d !in done
    ensures var ds := Unblocked(g, t) * done;
            var h := MakeReady(g, ds);
            && (d in Unblocked(g, t) <==> StateOf(h, d) == BLOCKED && Satisfied(h, d))
            && Unblocked(g, t) * (done + {d}) == (if d in Unblocked(g, t) then ds + {d} else ds)
  {
    var ds := Unblocked(g, t) * done;
    StillSatisfied(g, ds, d);
    assert StateOf(MakeReady(g, ds), d) == StateOf(g, d);
  }
}
