/**
 The task graph: four maps that every operation updates together, the
 depth-first cycle check that guards an insertion, and Kahn's algorithm.
 */
module TaskGraphs {
  import opened Basics
  import opened Types
  import opened Paths
  import Lifecycle

  /** The four maps of a graph, as a value. */
  datatype Graph = Graph(
    tasks: map<Id, ComputeTask>,
    states: map<Id, TaskState>,
    deps: map<Id, set<Id>>,
    dependents: map<Id, set<Id>>)

  const EMPTY_GRAPH: Graph := Graph(map[], map[], map[], map[])

  function Elements(q: seq<Id>): set<Id> {
    set x | x in q
  }

  function DepSet(task: ComputeTask): set<Id> {
    Elements(task.dependencies)
  }

  function StateOf(g: Graph, id: Id): TaskState {
    if id in g.states then g.states[id] else SUBMITTED
  }

  /** The three maps that are always filled and emptied together agree. */
  ghost predicate WellFormed(g: Graph) {
    && g.states.Keys == g.tasks.Keys == g.deps.Keys
    && forall id :: id in g.tasks ==> g.tasks[id].id == id && g.deps[id] == DepSet(g.tasks[id])
  }

  /** The reverse map holds exactly the reversed edges. */
  ghost predicate Inverse(g: Graph) {
    forall d, t :: t in Succ(g.dependents, d) <==> d in Succ(g.deps, t)
  }

  /** Every dependency has been added. */
  ghost predicate Complete(g: Graph) {
    forall id :: id in g.deps ==> g.deps[id] <= g.deps.Keys
  }

  ghost predicate Satisfied(g: Graph, id: Id) {
    forall d :: d in Succ(g.deps, id) ==> d in g.states && g.states[d] == SUCCEEDED
  }

  predicate IsPoison(s: TaskState) {
    s == FAILED || s == LOST || s == CANCELLED || s == EXPIRED
  }

  /** What poisons a dependent: a dependency that is over without success, except that one taken
      off its node does not. */
  lemma PoisonIs(s: TaskState)
    ensures IsPoison(s) <==> Lifecycle.IsTerminal(s) && s != SUCCEEDED && s != PREEMPTED
  {
  }

  ghost predicate Poisoned(g: Graph, id: Id) {
    exists d :: d in Succ(g.deps, id) && d in g.states && IsPoison(g.states[d])
  }

  // ----- specifications of the updates -----

  function SetState(g: Graph, id: Id, s: TaskState): Graph {
    if id in g.states && Lifecycle.IsLegal(g.states[id], s) then g.(states := g.states[id := s]) else g
  }

  /** `rev` with `id` added to the reverse set of every member of `ds`. */
  function AddReverse(rev: map<Id, set<Id>>, ds: set<Id>, id: Id): map<Id, set<Id>> {
    map d | d in rev.Keys + ds :: Succ(rev, d) + if d in ds then {id} else {}
  }

  /** `rev` with `id` taken out of the reverse set of every member of `ds`; the sets
      themselves stay behind, empty or not. */
  function DropReverse(rev: map<Id, set<Id>>, ds: set<Id>, id: Id): map<Id, set<Id>> {
    map d | d in rev.Keys + ds :: Succ(rev, d) - if d in ds then {id} else {}
  }

  lemma AddNoReverse(rev: map<Id, set<Id>>, id: Id)
    ensures AddReverse(rev, {}, id) == rev
  {
    forall d | d in rev ensures AddReverse(rev, {}, id)[d] == rev[d] {
      assert rev[d] + {} == rev[d];
    }
    assert AddReverse(rev, {}, id).Keys == rev.Keys;
  }

  function Extended(g: Graph, task: ComputeTask): Graph {
    Graph(g.tasks[task.id := task], g.states[task.id := SUBMITTED], g.deps[task.id := DepSet(task)],
          AddReverse(g.dependents, DepSet(task), task.id))
  }

  /** What a rejected insertion leaves behind: tasks, states and dependencies are as
      they were, but the whole reverse set of the rejected id is erased. */
  function RolledBack(g: Graph, task: ComputeTask): Graph {
    g.(dependents := DropReverse(g.dependents, DepSet(task), task.id) - {task.id})
  }

  ghost function Added(g: Graph, task: ComputeTask): (Graph, Outcome) {
    if task.id in g.tasks then (g, Failed(AlreadyExists))
    else if task.id in task.dependencies then (g, Failed(SelfDependency))
    else if CycleFrom(Extended(g, task).deps, task.id) then (RolledBack(g, task), Failed(DependencyCycle))
    else (Extended(g, task), Done)
  }

  /** Insert a list of ids into an ordered set. */
  method Collect(ids: seq<Id>) returns (s: set<Id>)
    ensures s == Elements(ids)
  {
    s := {};
    for i := 0 to |ids|
      invariant s == Elements(ids[..i])
    {
      assert ids[..i + 1] == ids[..i] + [ids[i]];
      s := s + {ids[i]};
    }
    assert ids[..|ids|] == ids;
  }

  /** Enter `id` in the reverse set of every listed dependency. */
  method Link(rev0: map<Id, set<Id>>, ids: seq<Id>, id: Id) returns (rev: map<Id, set<Id>>)
    ensures rev == AddReverse(rev0, Elements(ids), id)
  {
    rev := rev0;
    AddNoReverse(rev0, id);
    ghost var done: set<Id> := {};
    for i := 0 to |ids|
      invariant done == Elements(ids[..i])
      invariant rev == AddReverse(rev0, done, id)
    {
      assert ids[..i + 1] == ids[..i] + [ids[i]];
      var d := ids[i];
      AddOneMore(rev0, done, d, id);
      rev := rev[d := Succ(rev, d) + {id}];
      done := done + {d};
    }
    assert ids[..|ids|] == ids;
  }

  /** Erase `id` from the reverse set of every listed dependency. */
  method Unlink(rev0: map<Id, set<Id>>, ids: seq<Id>, id: Id) returns (rev: map<Id, set<Id>>)
    ensures rev == DropReverse(rev0, Elements(ids), id)
  {
    rev := rev0;
    ghost var done: set<Id> := {};
    DropNoReverse(rev0, id);
    for i := 0 to |ids|
      invariant done == Elements(ids[..i])
      invariant rev == DropReverse(rev0, done, id)
    {
      assert ids[..i + 1] == ids[..i] + [ids[i]];
      var d := ids[i];
      DropOneMore(rev0, done, d, id);
      rev := rev[d := Succ(rev, d) - {id}];
      done := done + {d};
    }
    assert ids[..|ids|] == ids;
  }

  lemma DropNoReverse(rev: map<Id, set<Id>>, id: Id)
    ensures DropReverse(rev, {}, id) == rev
  {
    forall d | d in rev ensures DropReverse(rev, {}, id)[d] == rev[d] {
      assert rev[d] - {} == rev[d];
    }
    assert DropReverse(rev, {}, id).Keys == rev.Keys;
  }

  lemma AddOneMore(rev: map<Id, set<Id>>, ds: set<Id>, d: Id, id: Id)
    ensures AddReverse(rev, ds + {d}, id)
            == AddReverse(rev, ds, id)[d := Succ(AddReverse(rev, ds, id), d) + {id}]
  {
    var m := AddReverse(rev, ds, id)[d := Succ(AddReverse(rev, ds, id), d) + {id}];
    var n := AddReverse(rev, ds + {d}, id);
    assert m.Keys == n.Keys;
    forall x | x in n ensures m[x] == n[x] {}
  }

  lemma PutThenErase<T>(m: map<Id, T>, k: Id, v: T)
    requires k !in m
    ensures m[k := v] - {k} == m
  {
    assert (m[k := v] - {k}).Keys == m.Keys;
  }

  lemma DropOneMore(rev: map<Id, set<Id>>, ds: set<Id>, d: Id, id: Id)
    ensures DropReverse(rev, ds + {d}, id)
            == DropReverse(rev, ds, id)[d := Succ(DropReverse(rev, ds, id), d) - {id}]
  {
    var m := DropReverse(rev, ds, id)[d := Succ(DropReverse(rev, ds, id), d) - {id}];
    var n := DropReverse(rev, ds + {d}, id);
    assert m.Keys == n.Keys;
    forall x | x in n ensures m[x] == n[x] {}
  }

  lemma LinkThenUnlink(rev: map<Id, set<Id>>, ds: set<Id>, id: Id)
    ensures DropReverse(AddReverse(rev, ds, id), ds, id) == DropReverse(rev, ds, id)
  {
    var m := DropReverse(AddReverse(rev, ds, id), ds, id);
    var n := DropReverse(rev, ds, id);
    assert m.Keys == n.Keys;
    forall x | x in n ensures m[x] == n[x] {}
  }

  // ----- depth-first search -----

  datatype Color = White | Gray | Black

  function ColorOf(color: map<Id, Color>, v: Id): Color {
    if v in color then color[v] else White
  }

  /** Nodes still white among those the search can meet. */
  ghost function Unvisited(color: map<Id, Color>, nodes: set<Id>): set<Id> {
    set v | v in nodes && ColorOf(color, v) == White
  }

  /** `fin` lists the black nodes, in an order in which every edge leads backwards. */
  ghost predicate Blackened(deps: Edges, color: map<Id, Color>, fin: seq<Id>) {
    && Finished(deps, fin)
    && forall v :: v in fin <==> ColorOf(color, v) == Black
  }

  ghost predicate ClosedUnder(deps: Edges, nodes: set<Id>) {
    forall v :: v in deps ==> v in nodes && deps[v] <= nodes
  }

  /** One activation of the recursive search, on a white node. The dependencies are
      visited in an arbitrary order. */
  method Search(deps: Edges, cur: Id, color0: map<Id, Color>, ghost nodes: set<Id>, ghost fin0: seq<Id>)
    returns (found: bool, color: map<Id, Color>, ghost fin: seq<Id>)
    requires ClosedUnder(deps, nodes) && cur in nodes
    requires ColorOf(color0, cur) == White
    requires Blackened(deps, color0, fin0)
    requires forall v :: ColorOf(color0, v) == Gray ==> Reaches(deps, v, cur)
    ensures found ==> CycleFrom(deps, cur)
    ensures !found ==> Blackened(deps, color, fin) && fin0 <= fin && cur in fin
    ensures !found ==> forall v :: ColorOf(color, v) == Gray <==> ColorOf(color0, v) == Gray
    ensures !found ==> forall v :: ColorOf(color0, v) != White ==> ColorOf(color, v) != White
    decreases |Unvisited(color0, nodes)|
  {
    color, fin := color0[cur := Gray], fin0;
    var todo := Succ(deps, cur);
    ReachesSelf(deps, cur);
    while todo != {}
      invariant todo <= Succ(deps, cur)
      invariant Blackened(deps, color, fin) && fin0 <= fin
      invariant forall v :: ColorOf(color, v) == Gray <==> v == cur || ColorOf(color0, v) == Gray
      invariant forall v :: ColorOf(color0, v) != White ==> ColorOf(color, v) != White
      invariant forall d :: d in Succ(deps, cur) - todo ==> d in fin
      decreases todo
    {
      var d :| d in todo;
      todo := todo - {d};
      if ColorOf(color, d) == Gray {
        StepThenReach(deps, cur, d, cur);
        return true, color, fin;
      }
      if ColorOf(color, d) == White {
        forall v | ColorOf(color, v) == Gray ensures Reaches(deps, v, d) {
          ReachThenStep(deps, v, cur, d);
        }
        assert Unvisited(color, nodes) < Unvisited(color0, nodes) by {
          assert cur in Unvisited(color0, nodes) && cur !in Unvisited(color, nodes);
        }
        SmallerSet(Unvisited(color, nodes), Unvisited(color0, nodes));
        var sub: bool;
        ghost var fin1 := fin;
        sub, color, fin := Search(deps, d, color, nodes, fin);
        if sub {
          ghost var v :| Reaches(deps, d, v) && OnCycle(deps, v);
          StepThenReach(deps, cur, d, v);
          return true, color, fin;
        }
      }
    }
    FinishedAppend(deps, fin, cur);
    color, fin := color[cur := Black], fin + [cur];
    found := false;
  }

  lemma SmallerSet(a: set<Id>, b: set<Id>)
    requires a < b
    ensures |a| < |b|
  {
    assert b == a + (b - a);
    assert b - a != {};
  }

  lemma NodesClosed(deps: Edges) returns (nodes: set<Id>)
    ensures ClosedUnder(deps, nodes)
  {
    nodes := deps.Keys + set v, d | v in deps && d in deps[v] :: d;
  }

  // ----- topological orders -----

  ghost predicate Distinct(q: seq<Id>) {
    forall i, j :: 0 <= i < j < |q| ==> q[i] != q[j]
  }

  /** Each task's dependencies come before it. */
  ghost predicate DepsFirst(deps: Edges, q: seq<Id>) {
    forall i :: 0 <= i < |q| ==> q[i] in deps && deps[q[i]] <= Elements(q[..i])
  }

  ghost predicate IsTopological(deps: Edges, q: seq<Id>) {
    Distinct(q) && DepsFirst(deps, q) && Elements(q) == deps.Keys
  }

  /** What may come next after the tasks in `done`. */
  ghost function ReadyAfter(deps: Edges, done: set<Id>): set<Id> {
    set t | t in deps && t !in done && deps[t] <= done
  }

  /** Each task is the least of those that could have come at its place. */
  ghost predicate Greedy(deps: Edges, q: seq<Id>) {
    forall i :: 0 <= i < |q| ==> IsLeast(ReadyAfter(deps, Elements(q[..i])), q[i])
  }

  /** `a` precedes or equals `b` in dictionary order. */
  ghost predicate LexLeq(a: seq<Id>, b: seq<Id>) {
    exists k :: 0 <= k <= |a| && k <= |b| && a[..k] == b[..k] && (k == |a| || (k < |b| && a[k] < b[k]))
  }

  lemma {:induction false} AgreeOrDiffer(a: seq<Id>, b: seq<Id>, n: nat) returns (k: nat)
    requires n <= |a| && n <= |b|
    ensures k <= n && a[..k] == b[..k]
    ensures k == n || a[k] != b[k]
    decreases n
  {
    if n == 0 {
      k := 0;
    } else {
      k := AgreeOrDiffer(a, b, n - 1);
      if k == n - 1 && a[k] == b[k] {
        assert a[..n] == a[..k] + [a[k]] && b[..n] == b[..k] + [b[k]];
        k := n;
      }
    }
  }

  lemma GreedyIsLeast(deps: Edges, a: seq<Id>, b: seq<Id>)
    requires IsTopological(deps, a) && Greedy(deps, a) && IsTopological(deps, b)
    ensures LexLeq(a, b)
  {
    DistinctLength(a);
    DistinctLength(b);
    var k := AgreeOrDiffer(a, b, |a|);
    if k < |a| {
      assert b[k] !in Elements(b[..k]);
      assert b[k] in ReadyAfter(deps, Elements(a[..k]));
      assert a[k] <= b[k];
    }
  }

  lemma {:induction false} DistinctLength(q: seq<Id>)
    requires Distinct(q)
    ensures |Elements(q)| == |q|
    decreases |q|
  {
    if q != [] {
      var init, last := q[..|q| - 1], q[|q| - 1];
      DistinctLength(init);
      assert last !in init;
      assert Elements(q) == Elements(init) + {last} by {
        forall x | x in q ensures x in init || x == last {
          var i :| 0 <= i < |q| && q[i] == x;
          if i < |init| { assert init[i] == x; }
        }
      }
    }
  }

  lemma TopologicalIsAcyclic(deps: Edges, q: seq<Id>)
    requires IsTopological(deps, q)
    ensures Acyclic(deps)
    ensures forall id :: id in deps ==> deps[id] <= deps.Keys
  {
    forall i, d | 0 <= i < |q| && d in Succ(deps, q[i]) ensures d in q[..i] {
      assert d in Elements(q[..i]);
    }
    assert Finished(deps, q);
    forall v ensures !OnCycle(deps, v) {
      if v in deps {
        assert v in Elements(q);
        var i :| 0 <= i < |q| && q[i] == v;
        FinishedNotOnCycle(deps, q, i);
      } else if p :| IsCycle(deps, p, v) {
        FirstStep(deps, p, v, v);
        assert false;
      }
    }
    forall id | id in deps ensures deps[id] <= deps.Keys {
      assert id in Elements(q);
      var i :| 0 <= i < |q| && q[i] == id;
      assert Elements(q[..i]) <= Elements(q);
    }
  }

  /** `q` was built by always taking the least task that could come next. */
  ghost predicate Built(deps: Edges, q: seq<Id>) {
    q == [] || (Built(deps, q[..|q| - 1]) && IsLeast(ReadyAfter(deps, Elements(q[..|q| - 1])), q[|q| - 1]))
  }

  lemma BuiltGrows(deps: Edges, order: seq<Id>, cur: Id)
    requires Built(deps, order) && IsLeast(ReadyAfter(deps, Elements(order)), cur)
    ensures Built(deps, order + [cur])
    ensures Elements(order + [cur]) == Elements(order) + {cur}
  {
    assert (order + [cur])[..|order|] == order;
  }

  lemma {:induction false} BuiltIsOrdered(deps: Edges, q: seq<Id>)
    requires Built(deps, q)
    ensures Distinct(q) && DepsFirst(deps, q) && Greedy(deps, q)
    decreases |q|
  {
    if q != [] {
      var init := q[..|q| - 1];
      BuiltIsOrdered(deps, init);
      forall i | 0 <= i < |q|
        ensures q[i] in deps && deps[q[i]] <= Elements(q[..i])
        ensures IsLeast(ReadyAfter(deps, Elements(q[..i])), q[i])
      {
        assert i < |init| ==> q[..i] == init[..i];
      }
      forall i, j | 0 <= i < j < |q| ensures q[i] != q[j] {
        assert q[i] == init[i] && init[i] in Elements(init);
      }
    }
  }

  lemma {:induction false} BuiltIsClosed(deps: Edges, q: seq<Id>)
    requires Built(deps, q)
    ensures forall t :: t in Elements(q) ==> t in deps && deps[t] <= Elements(q)
    decreases |q|
  {
    if q != [] {
      var init := q[..|q| - 1];
      BuiltIsClosed(deps, init);
      assert q == init + [q[|q| - 1]];
    }
  }

  lemma CountOrder(deps: Edges, order: seq<Id>)
    requires Distinct(order) && DepsFirst(deps, order)
    ensures Elements(order) <= deps.Keys && |order| == |Elements(order)|
    ensures |order| == |deps| <==> Elements(order) == deps.Keys
  {
    DistinctLength(order);
    forall x | x in order ensures x in deps {
      var i :| 0 <= i < |order| && order[i] == x;
    }
    if Elements(order) != deps.Keys {
      SmallerSet(Elements(order), deps.Keys);
    }
  }

  /** Tasks are left over, none can come next, and no dependency is missing: a cycle. */
  lemma StuckMeansCycle(deps: Edges, done: set<Id>)
    requires done < deps.Keys && ReadyAfter(deps, done) == {}
    requires forall id :: id in deps ==> deps[id] <= deps.Keys
    ensures !Acyclic(deps)
  {
    var rest := deps.Keys - done;
    assert deps.Keys == done + rest;
    forall v | v in rest ensures Succ(deps, v) * rest != {} {
      assert v !in ReadyAfter(deps, done);
      var d :| d in deps[v] && d !in done;
      assert d in Succ(deps, v) * rest;
    }
    TrappedSetHasCycle(deps, rest);
  }

  ghost function DependentsIn(deps: Edges, d: Id, ts: set<Id>): set<Id> {
    set t | t in ts && d in Succ(deps, t)
  }

  /** The indegree of every task, and for every node the tasks that depend on it. */
  method CountEdges(deps: Edges) returns (indegree: map<Id, int>, out: Edges)
    ensures indegree == Degrees(deps, deps.Keys)
    ensures forall d :: Succ(out, d) == DependentsIn(deps, d, deps.Keys)
  {
    indegree, out := map[], map[];
    var todo := deps.Keys;
    ghost var done: set<Id> := {};
    while todo != {}
      invariant done == deps.Keys - todo && todo <= deps.Keys
      invariant indegree == Degrees(deps, done)
      invariant forall d :: Succ(out, d) == DependentsIn(deps, d, done)
    {
      var id := Least(todo);
      indegree := indegree[id := |deps[id]|];
      out := ListUnder(deps[id], out, id);
      OneMoreCounted(deps, done, id);
      todo, done := todo - {id}, done + {id};
    }
  }

  ghost function Degrees(deps: Edges, ts: set<Id>): map<Id, int> {
    map t | t in ts :: |Succ(deps, t)|
  }

  lemma OneMoreCounted(deps: Edges, done: set<Id>, id: Id)
    requires id in deps
    ensures Degrees(deps, done + {id}) == Degrees(deps, done)[id := |deps[id]|]
    ensures forall d :: DependentsIn(deps, d, done + {id})
                        == DependentsIn(deps, d, done) + if d in deps[id] then {id} else {}
  {
  }

  /** Enter `id` under each of its dependencies. */
  method ListUnder(ds: set<Id>, out0: Edges, id: Id) returns (out: Edges)
    ensures forall d :: Succ(out, d) == Succ(out0, d) + if d in ds then {id} else {}
  {
    out := out0;
    var todo := ds;
    while todo != {}
      invariant todo <= ds
      invariant forall d :: Succ(out, d) == Succ(out0, d) + if d in ds - todo then {id} else {}
    {
      var d :| d in todo;
      out := out[d := Succ(out, d) + {id}];
      todo := todo - {d};
    }
  }

  ghost function Decremented(indegree: map<Id, int>, done: set<Id>): map<Id, int> {
    map t | t in indegree :: indegree[t] - if t in done then 1 else 0
  }

  ghost function Reduced(indegree: map<Id, int>, done: set<Id>): set<Id> {
    set t | t in done && t in indegree && indegree[t] == 1
  }

  lemma DecrementOne(indegree: map<Id, int>, done: set<Id>, nxt: Id)
    requires nxt in indegree && nxt !in done
    ensures Decremented(indegree, done)[nxt := indegree[nxt] - 1] == Decremented(indegree, done + {nxt})
    ensures Decremented(indegree, done)[nxt] == indegree[nxt]
    ensures Reduced(indegree, done + {nxt}) == Reduced(indegree, done) + if indegree[nxt] == 1 then {nxt} else {}
  {
  }

  /** The inner loop: each dependent of the task just ordered loses one from its
      indegree, and those that reach zero become ready. */
  method Relax(indegree0: map<Id, int>, succs: set<Id>, ready0: set<Id>)
    returns (indegree: map<Id, int>, ready: set<Id>)
    requires succs <= indegree0.Keys
    ensures indegree == Decremented(indegree0, succs)
    ensures ready == ready0 + Reduced(indegree0, succs)
  {
    indegree, ready := indegree0, ready0;
    var todo := succs;
    ghost var done: set<Id> := {};
    while todo != {}
      invariant done == succs - todo && todo <= succs
      invariant indegree == Decremented(indegree0, done)
      invariant ready == ready0 + Reduced(indegree0, done)
    {
      var nxt :| nxt in todo;
      DecrementOne(indegree0, done, nxt);
      indegree := indegree[nxt := indegree[nxt] - 1];
      if indegree[nxt] == 0 {
        ready := ready + {nxt};
      }
      todo, done := todo - {nxt}, done + {nxt};
    }
  }

  /** The indegrees count the dependencies outside `done`. */
  ghost predicate Counts(deps: Edges, indegree: map<Id, int>, done: set<Id>) {
    indegree.Keys == deps.Keys && forall t :: t in deps ==> indegree[t] == |deps[t] - done|
  }

  lemma OneLessMissing(ds: set<Id>, before: set<Id>, cur: Id)
    requires cur !in before
    ensures |ds - (before + {cur})| == |ds - before| - if cur in ds then 1 else 0
    ensures |ds - before| == 1 && cur in ds <==> cur in ds && ds <= before + {cur}
  {
    assert ds - (before + {cur}) == (ds - before) - {cur};
    if ds <= before + {cur} && cur in ds {
      assert ds - before == {cur};
    }
    if |ds - before| == 1 && cur in ds {
      assert |(ds - before) - {cur}| == 0;
    }
  }

  /** The inner loop keeps the count, when `cur` is ordered after `before`. */
  lemma RelaxCounts(deps: Edges, indegree: map<Id, int>, before: set<Id>, cur: Id)
    requires Counts(deps, indegree, before) && cur !in before
    ensures Counts(deps, Decremented(indegree, DependentsIn(deps, cur, deps.Keys)), before + {cur})
  {
    forall t | t in deps
      ensures |deps[t] - (before + {cur})| == |deps[t] - before| - if cur in deps[t] then 1 else 0
    {
      OneLessMissing(deps[t], before, cur);
    }
  }

  /** The inner loop finds the tasks that `cur` was the last to hold back. */
  lemma RelaxReadies(deps: Edges, indegree: map<Id, int>, before: set<Id>, cur: Id)
    requires Counts(deps, indegree, before) && cur !in before
    requires forall t :: t in before + {cur} ==> t in deps && deps[t] <= before
    ensures ReadyAfter(deps, before + {cur})
            == ReadyAfter(deps, before) - {cur} + Reduced(indegree, DependentsIn(deps, cur, deps.Keys))
  {
    forall t | t in deps
      ensures |deps[t] - before| == 1 && cur in deps[t] <==> cur in deps[t] && deps[t] <= before + {cur}
    {
      OneLessMissing(deps[t], before, cur);
    }
  }

  lemma FirstCounts(deps: Edges)
    ensures Counts(deps, Degrees(deps, deps.Keys), {})
  {
    forall t | t in deps ensures deps[t] - {} == deps[t] {}
  }

  lemma FirstReady(deps: Edges)
    ensures (set t | t in deps && |deps[t]| == 0) == ReadyAfter(deps, {})
  {
  }

  method CountReady(deps: Edges) returns (indegree: map<Id, int>, out: Edges, ready: set<Id>)
    ensures Counts(deps, indegree, {})
    ensures forall d :: Succ(out, d) == DependentsIn(deps, d, deps.Keys)
    ensures ready == ReadyAfter(deps, {})
  {
    indegree, out := CountEdges(deps);
    ready := set id | id in deps && indegree[id] == 0;
    FirstReady(deps);
    FirstCounts(deps);
  }

  /** One round of Kahn's algorithm. */
  lemma KahnStep(deps: Edges, indegree: map<Id, int>, order: seq<Id>, cur: Id)
    requires Built(deps, order) && Counts(deps, indegree, Elements(order))
    requires IsLeast(ReadyAfter(deps, Elements(order)), cur)
    ensures Built(deps, order + [cur])
    ensures Elements(order + [cur]) == Elements(order) + {cur}
    ensures Counts(deps, Decremented(indegree, DependentsIn(deps, cur, deps.Keys)), Elements(order + [cur]))
    ensures ReadyAfter(deps, Elements(order + [cur])) ==
            ReadyAfter(deps, Elements(order)) - {cur} + Reduced(indegree, DependentsIn(deps, cur, deps.Keys))
  {
    BuiltGrows(deps, order, cur);
    BuiltIsClosed(deps, order);
    RelaxCounts(deps, indegree, Elements(order), cur);
    RelaxReadies(deps, indegree, Elements(order), cur);
  }

  /** Kahn's algorithm: keep taking the least task whose dependencies are all ordered. */
  method Kahn(deps: Edges) returns (order: seq<Id>)
    ensures Built(deps, order)
    ensures ReadyAfter(deps, Elements(order)) == {}
  {
    var indegree, out, ready := CountReady(deps);
    order := [];
    assert Elements(order) == {};
    while ready != {}
      invariant Built(deps, order)
      invariant Counts(deps, indegree, Elements(order))
      invariant ready == ReadyAfter(deps, Elements(order))
      decreases deps.Keys - Elements(order)
    {
      var cur := Least(ready);
      var succs := Succ(out, cur);
      assert succs == DependentsIn(deps, cur, deps.Keys);
      KahnStep(deps, indegree, order, cur);
      indegree, ready := Relax(indegree, succs, ready - {cur});
      order := order + [cur];
    }
  }

  // ----- what an insertion keeps and decides -----

  lemma ExtendedWellFormed(g: Graph, task: ComputeTask)
    requires WellFormed(g) && task.id !in g.tasks
    ensures WellFormed(Extended(g, task))
  {
  }

  lemma AddedWellFormed(g: Graph, task: ComputeTask)
    requires WellFormed(g)
    ensures WellFormed(Added(g, task).0)
  {
    if task.id !in g.tasks { ExtendedWellFormed(g, task); }
  }

  /** Looking for a cycle from the new task decides whether the graph stays acyclic;
      a rejected task leaves tasks, states and dependencies as they were. */
  lemma AddedDecides(g: Graph, task: ComputeTask)
    requires WellFormed(g) && Acyclic(g.deps)
    ensures Acyclic(Added(g, task).0.deps)
    ensures Added(g, task).1 == Done <==>
            task.id !in g.tasks && task.id !in task.dependencies && Acyclic(g.deps[task.id := DepSet(task)])
    ensures Added(g, task).1 != Done ==> Added(g, task).0.(dependents := g.dependents) == g
  {
    if task.id !in g.tasks {
      NewNodeCycles(g.deps, task.id, DepSet(task));
    }
  }

  /** An accepted insertion keeps the reverse map exact. */
  lemma ExtendedInverse(g: Graph, task: ComputeTask)
    requires WellFormed(g) && Inverse(g) && task.id !in g.tasks
    ensures Inverse(Extended(g, task))
  {
    var e := Extended(g, task);
    forall d, t ensures t in Succ(e.dependents, d) <==> d in Succ(e.deps, t) {
      assert t in Succ(g.dependents, d) <==> d in Succ(g.deps, t);
      assert Succ(e.dependents, d) == Succ(g.dependents, d) + if d in DepSet(task) then {task.id} else {};
    }
  }

  /** A rejected insertion keeps the reverse map exact if and only if no task already
      in the graph depends on the rejected one. */
  lemma RollbackInverse(g: Graph, task: ComputeTask)
    requires WellFormed(g) && Inverse(g) && task.id !in g.tasks && task.id !in DepSet(task)
    ensures Inverse(RolledBack(g, task)) <==> forall u :: u in g.deps ==> task.id !in g.deps[u]
  {
    var b := RolledBack(g, task);
    assert forall d :: d != task.id ==>
      Succ(b.dependents, d) == Succ(g.dependents, d) - if d in DepSet(task) then {task.id} else {};
    assert Succ(b.dependents, task.id) == {};
    assert forall d :: task.id !in Succ(g.dependents, d) by {
      forall d ensures task.id !in Succ(g.dependents, d) {
        assert task.id in Succ(g.dependents, d) <==> d in Succ(g.deps, task.id);
      }
    }
    if u :| u in g.deps && task.id in g.deps[u] {
      assert !(u in Succ(b.dependents, task.id) <==> task.id in Succ(b.deps, u));
    } else {
      forall d, t ensures t in Succ(b.dependents, d) <==> d in Succ(b.deps, t) {
        assert t in Succ(g.dependents, d) <==> d in Succ(g.deps, t);
      }
    }
  }

  /** Consequently every rejection for a cycle loses a reverse edge: the cycle enters
      the rejected task from a task that already depended on it. */
  lemma CycleRejectionLosesReverseEdge(g: Graph, task: ComputeTask)
    requires WellFormed(g) && Inverse(g) && Acyclic(g.deps)
    requires Added(g, task).1 == Failed(DependencyCycle)
    ensures !Inverse(Added(g, task).0)
  {
    AddedDecides(g, task);
    NewCycleHasOldEdge(g.deps, task.id, DepSet(task));
    RollbackInverse(g, task);
  }

  // ----- the graph object -----

  class TaskGraph {
    var tasks: map<Id, ComputeTask>
    var states: map<Id, TaskState>
    var deps: map<Id, set<Id>>
    var dependents: map<Id, set<Id>>

    ghost function View(): Graph reads this {
      Graph(tasks, states, deps, dependents)
    }

    ghost predicate Valid() reads this {
      WellFormed(View())
    }

    function State(id: Id): TaskState reads this {
      if id in states then states[id] else SUBMITTED
    }

    constructor ()
      ensures Valid() && View() == EMPTY_GRAPH
    {
      tasks, states, deps, dependents := map[], map[], map[], map[];
    }

    method AddTask(task: ComputeTask) returns (r: Outcome)
      requires Valid()
      modifies this
      ensures (View(), r) == Added(old(View()), task)
      ensures Valid()
    {
      AddedWellFormed(View(), task);
      if task.id in tasks {
        return Failed(AlreadyExists);
      }
      if task.id in task.dependencies {
        return Failed(SelfDependency);
      }
      tasks := tasks[task.id := task];
      states := states[task.id := SUBMITTED];
      var ds := Collect(task.dependencies);
      deps := deps[task.id := ds];
      dependents := Link(dependents, task.dependencies, task.id);
      r := ValidateDependencies(task.id);
      if r != Done {
        dependents := Unlink(dependents, task.dependencies, task.id);
        LinkThenUnlink(old(dependents), ds, task.id);
        PutThenErase(old(deps), task.id, ds);
        PutThenErase(old(states), task.id, SUBMITTED);
        PutThenErase(old(tasks), task.id, task);
        dependents := dependents - {task.id};
        deps := deps - {task.id};
        states := states - {task.id};
        tasks := tasks - {task.id};
      }
    }

    method ValidateDependencies(id: Id) returns (r: Outcome)
      ensures id !in tasks ==> r == Failed(TaskNotFound)
      ensures id in tasks ==> r == if CycleFrom(deps, id) then Failed(DependencyCycle) else Done
    {
      if id !in tasks {
        return Failed(TaskNotFound);
      }
      ghost var nodes := NodesClosed(deps);
      var found, color, fin := Search(deps, id, map[], nodes + {id}, []);
      if found {
        return Failed(DependencyCycle);
      }
      FinishedNoCycleFrom(deps, fin, id);
      return Done;
    }

    method DependenciesSatisfied(id: Id) returns (b: bool)
      ensures b <==> Satisfied(View(), id)
    {
      if id !in deps {
        return true;
      }
      var todo := deps[id];
      while todo != {}
        invariant todo <= deps[id]
        invariant forall d :: d in deps[id] - todo ==> d in states && states[d] == SUCCEEDED
      {
        var d :| d in todo;
        if d !in states || states[d] != SUCCEEDED {
          return false;
        }
        todo := todo - {d};
      }
      return true;
    }

    method DependencyPoisoned(id: Id) returns (b: bool)
      ensures b <==> Poisoned(View(), id)
    {
      if id !in deps {
        return false;
      }
      var todo := deps[id];
      while todo != {}
        invariant todo <= deps[id]
        invariant forall d :: d in deps[id] - todo ==> !(d in states && IsPoison(states[d]))
      {
        var d :| d in todo;
        if d in states && IsPoison(states[d]) {
          return true;
        }
        todo := todo - {d};
      }
      return false;
    }

    method SetTaskState(id: Id, s: TaskState) returns (r: Outcome)
      requires Valid()
      modifies `states
      ensures Valid()
      ensures View() == SetState(old(View()), id, s)
      ensures r == if id !in old(states) then Failed(TaskNotFound)
                   else if Lifecycle.IsLegal(old(states)[id], s) then Done else Failed(IllegalTransition)
    {
      if id !in states {
        return Failed(TaskNotFound);
      }
      if !Lifecycle.IsLegal(states[id], s) {
        return Failed(IllegalTransition);
      }
      states := states[id := s];
      return Done;
    }

    method RestoreState(id: Id, s: TaskState)
      requires Valid()
      modifies `states
      ensures Valid()
      ensures states == if id in old(states) then old(states)[id := s] else old(states)
    {
      if id in states {
        states := states[id := s];
      }
    }

    method TopologicalOrder() returns (r: Result<seq<Id>>)
      requires Valid()
      ensures r.Ok? <==> Complete(View()) && Acyclic(deps)
      ensures r.Ok? ==> IsTopological(deps, r.value)
      ensures r.Ok? ==> forall q :: IsTopological(deps, q) ==> LexLeq(r.value, q)
      ensures r.Err? ==> r.error == DependencyCycle
    {
      var order := Kahn(deps);
      BuiltIsOrdered(deps, order);
      CountOrder(deps, order);
      if |order| != |tasks| {
        if Complete(View()) {
          StuckMeansCycle(deps, Elements(order));
        }
        return Err(DependencyCycle);
      }
      TopologicalIsAcyclic(deps, order);
      forall q | IsTopological(deps, q) ensures LexLeq(order, q) {
        GreedyIsLeast(deps, order, q);
      }
      return Ok(order);
    }
  }
}
