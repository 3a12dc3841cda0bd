/**
 Paths and cycles along dependency edges. An edge goes from a task to each task
 it depends on; a dependency that has not been added yet has no edges of its own.
 */
module Paths {
  import opened Basics

  type Edges = map<Id, set<Id>>

  function Succ(deps: Edges, v: Id): set<Id> {
    if v in deps then deps[v] else {}
  }

  ghost predicate IsPath(deps: Edges, p: seq<Id>) {
    |p| > 0 && forall i :: 0 <= i < |p| - 1 ==> p[i + 1] in Succ(deps, p[i])
  }

  ghost predicate PathBetween(deps: Edges, p: seq<Id>, u: Id, v: Id) {
    IsPath(deps, p) && p[0] == u && p[|p| - 1] == v
  }

  ghost predicate Reaches(deps: Edges, u: Id, v: Id) {
    exists p :: PathBetween(deps, p, u, v)
  }

  ghost predicate IsCycle(deps: Edges, p: seq<Id>, v: Id) {
    |p| >= 2 && PathBetween(deps, p, v, v)
  }

  ghost predicate OnCycle(deps: Edges, v: Id) {
    exists p :: IsCycle(deps, p, v)
  }

  ghost predicate CycleFrom(deps: Edges, u: Id) {
    exists v :: Reaches(deps, u, v) && OnCycle(deps, v)
  }

  ghost predicate Acyclic(deps: Edges) {
    forall v :: !OnCycle(deps, v)
  }

  lemma ReachesSelf(deps: Edges, u: Id)
    ensures Reaches(deps, u, u)
  {
    assert PathBetween(deps, [u], u, u);
  }

  lemma StepThenReach(deps: Edges, u: Id, v: Id, w: Id)
    requires v in Succ(deps, u) && Reaches(deps, v, w)
    ensures Reaches(deps, u, w)
    ensures w == u ==> OnCycle(deps, u)
  {
    var p :| PathBetween(deps, p, v, w);
    var q := [u] + p;
    assert PathBetween(deps, q, u, w);
    assert w == u ==> IsCycle(deps, q, u);
  }

  lemma ReachThenStep(deps: Edges, u: Id, v: Id, w: Id)
    requires Reaches(deps, u, v) && w in Succ(deps, v)
    ensures Reaches(deps, u, w)
  {
    var p :| PathBetween(deps, p, u, v);
    assert PathBetween(deps, p + [w], u, w);
  }

  lemma Subpath(deps: Edges, p: seq<Id>, i: nat, j: nat)
    requires IsPath(deps, p) && i < j <= |p|
    ensures IsPath(deps, p[i..j])
  {
    var q := p[i..j];
    forall k | 0 <= k < |q| - 1 ensures q[k + 1] in Succ(deps, q[k]) {
      assert q[k] == p[i + k] && q[k + 1] == p[i + k + 1];
    }
  }

  /** A path that is longer than one node begins with a step. */
  lemma FirstStep(deps: Edges, p: seq<Id>, u: Id, v: Id)
    requires PathBetween(deps, p, u, v) && |p| >= 2
    ensures p[1] in Succ(deps, u)
    ensures PathBetween(deps, p[1..], p[1], v)
  {
    assert p[0 + 1] in Succ(deps, p[0]);
    Subpath(deps, p, 1, |p|);
  }

  // ----- finishing orders -----

  /** Every edge out of a listed node leads to a node listed before it. */
  ghost predicate Finished(deps: Edges, fin: seq<Id>) {
    forall i, d :: 0 <= i < |fin| && d in Succ(deps, fin[i]) ==> d in fin[..i]
  }

  lemma FinishedAppend(deps: Edges, fin: seq<Id>, v: Id)
    requires Finished(deps, fin)
    requires forall d :: d in Succ(deps, v) ==> d in fin
    ensures Finished(deps, fin + [v])
  {
    var f := fin + [v];
    forall i, d | 0 <= i < |f| && d in Succ(deps, f[i]) ensures d in f[..i] {
      assert f[..i] == if i < |fin| then fin[..i] else fin;
    }
  }

  lemma {:induction false} FinishedPath(deps: Edges, fin: seq<Id>, i: nat, p: seq<Id>, v: Id)
    requires Finished(deps, fin) && i < |fin|
    requires PathBetween(deps, p, fin[i], v)
    ensures |p| >= 2 ==> v in fin[..i]
    decreases |p|
  {
    if |p| >= 2 {
      FirstStep(deps, p, fin[i], v);
      var j :| 0 <= j < i && fin[j] == p[1];
      FinishedPath(deps, fin, j, p[1..], v);
      if |p| == 2 {
        assert v == fin[j];
      } else {
        assert v in fin[..j] && fin[..j] <= fin[..i];
      }
    }
  }

  lemma {:induction false} FinishedNotOnCycle(deps: Edges, fin: seq<Id>, i: nat)
    requires Finished(deps, fin) && i < |fin|
    ensures !OnCycle(deps, fin[i])
    decreases i
  {
    if OnCycle(deps, fin[i]) {
      var p :| IsCycle(deps, p, fin[i]);
      FinishedPath(deps, fin, i, p, fin[i]);
      var j :| 0 <= j < i && fin[j] == fin[i];
      FinishedNotOnCycle(deps, fin, j);
      assert false;
    }
  }

  /** Nothing reachable from a listed node lies on a cycle. */
  lemma FinishedNoCycleFrom(deps: Edges, fin: seq<Id>, u: Id)
    requires Finished(deps, fin) && u in fin
    ensures !CycleFrom(deps, u)
  {
    var i :| 0 <= i < |fin| && fin[i] == u;
    forall v | Reaches(deps, u, v) ensures !OnCycle(deps, v) {
      var p :| PathBetween(deps, p, u, v);
      FinishedPath(deps, fin, i, p, v);
      var j :| 0 <= j < |fin| && fin[j] == v;
      FinishedNotOnCycle(deps, fin, j);
    }
  }

  // ----- finite sets in which every node can step to another member -----

  /** In a finite set where every member has an edge back into the set, some member
      lies on a cycle. */
  lemma TrappedSetHasCycle(deps: Edges, s: set<Id>)
    requires s != {}
    requires forall v :: v in s ==> Succ(deps, v) * s != {}
    ensures !Acyclic(deps)
  {
    var v :| v in s;
    var w := WalkInside(deps, s, v, |s|);
    var i, j := Repetition(w, s);
    Subpath(deps, w, i, j + 1);
    assert IsCycle(deps, w[i..j + 1], w[i]);
    assert OnCycle(deps, w[i]);
  }

  lemma {:induction false} WalkInside(deps: Edges, s: set<Id>, v: Id, n: nat) returns (w: seq<Id>)
    requires v in s
    requires forall x :: x in s ==> Succ(deps, x) * s != {}
    ensures |w| == n + 1 && w[0] == v && IsPath(deps, w)
    ensures forall x :: x in w ==> x in s
    decreases n
  {
    if n == 0 {
      w := [v];
    } else {
      var d :| d in Succ(deps, v) * s;
      var rest := WalkInside(deps, s, d, n - 1);
      w := [v] + rest;
    }
  }

  /** The pigeonhole principle: a sequence longer than the set it draws from repeats. */
  lemma Repetition(w: seq<Id>, s: set<Id>) returns (i: nat, j: nat)
    requires forall x :: x in w ==> x in s
    requires |w| > |s|
    ensures i < j < |w| && w[i] == w[j]
    decreases |w|
  {
    var last := w[|w| - 1];
    if k :| 0 <= k < |w| - 1 && w[k] == last {
      i, j := k, |w| - 1;
    } else {
      var init := w[..|w| - 1];
      forall x | x in init ensures x in s - {last} {
        var k :| 0 <= k < |init| && init[k] == x;
        assert w[k] == x;
      }
      assert last in w;
      i, j := Repetition(init, s - {last});
    }
  }

  // ----- acyclic graphs and adding one node -----

  /** Removing edges never creates a cycle. */
  lemma FewerEdgesStayAcyclic(deps: Edges, more: Edges)
    requires Acyclic(more)
    requires forall v :: v in deps ==> deps[v] <= Succ(more, v)
    ensures Acyclic(deps)
  {
    forall v ensures !OnCycle(deps, v) {
      if p :| IsCycle(deps, p, v) {
        assert IsCycle(more, p, v);
        assert OnCycle(more, v);
        assert false;
      }
    }
  }

  /** The first node of `p` equal to `id`, if any. */
  lemma {:induction false} PathAvoidsOrHits(deps: Edges, p: seq<Id>, id: Id)
    requires IsPath(deps, p)
    ensures id in p ==> Reaches(deps, id, p[|p| - 1]) && Reaches(deps, p[0], id)
  {
    if id in p {
      var k :| 0 <= k < |p| && p[k] == id;
      assert PathBetween(deps, p[k..], id, p[|p| - 1]);
      assert PathBetween(deps, p[..k + 1], p[0], id);
    }
  }

  /** When only the edges out of `id` are new, every cycle of the extended graph is
      reachable from `id`: so looking for cycles from `id` alone is enough. */
  lemma NewNodeCycles(deps: Edges, id: Id, ds: set<Id>)
    requires Acyclic(deps) && id !in deps
    ensures Acyclic(deps[id := ds]) <==> !CycleFrom(deps[id := ds], id)
  {
    var ext := deps[id := ds];
    if v :| OnCycle(ext, v) {
      var p :| IsCycle(ext, p, v);
      if id in p {
        PathAvoidsOrHits(ext, p, id);
        assert Reaches(ext, id, v);
      } else {
        assert forall i :: 0 <= i < |p| - 1 ==> p[i] in p && Succ(ext, p[i]) == Succ(deps, p[i]);
        assert IsCycle(deps, p, v);
        assert OnCycle(deps, v);
        assert false;
      }
    }
  }

  /** A cycle created by `id` enters `id` from a node that already depended on it. */
  lemma NewCycleHasOldEdge(deps: Edges, id: Id, ds: set<Id>)
    requires Acyclic(deps) && id !in deps && id !in ds
    requires !Acyclic(deps[id := ds])
    ensures exists u :: u in deps && id in deps[u]
  {
    var ext := deps[id := ds];
    var v :| OnCycle(ext, v);
    var p :| IsCycle(ext, p, v);
    if id !in p {
      assert forall i :: 0 <= i < |p| - 1 ==> p[i] in p && Succ(ext, p[i]) == Succ(deps, p[i]);
      assert IsCycle(deps, p, v);
      assert OnCycle(deps, v);
      assert false;
    }
    var k :| 0 <= k < |p| && p[k] == id;
    var u := if k > 0 then p[k - 1] else p[|p| - 2];
    if k > 0 {
      assert p[k - 1 + 1] in Succ(ext, p[k - 1]);
    } else {
      assert p[|p| - 2 + 1] in Succ(ext, p[|p| - 2]);
    }
    assert id in Succ(ext, u) && u != id;
  }
}
