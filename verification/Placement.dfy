/**
 Choosing a node for a task: which nodes are excluded and why, what the others
 score, and which of them wins.
 */
module Placement {
  import opened Basics
  import opened Types
  import opened Reservations
  import opened CostModels

  // ----- eligibility -----

  datatype Reason =
    | IsOffline
    | IsDraining
    | IsSuspect
    | NotConnected
    | CapabilityMismatch
    | InsufficientSlots
    | InsufficientScratch
    | Forbidden
    | MissingTag(tag: Bytes)

  predicate CapabilityCompatible(task: ComputeTask, node: NodeRecord) {
    var cap := Capability(node, task.requiredExecutor);
    && cap.Some? && cap.value.healthy && cap.value.slots > 0
    && (task.requiredExecutor == CUDA && task.minCapabilityMajor > 0 ==>
          cap.value.major > task.minCapabilityMajor
          || (cap.value.major == task.minCapabilityMajor && cap.value.minor >= task.minCapabilityMinor))
  }

  function RequiredSlots(task: ComputeTask): U32 {
    if task.requiredExecutor == CUDA then task.requiredGpuSlots else task.requiredCpuSlots
  }

  /** `static_cast<int32_t>` of an unsigned 32-bit number. */
  function AsInt32(n: U32): Int32 {
    if n < TWO_31 then n else n - TWO_32
  }

  function Repeated(ids: seq<Id>, id: Id): seq<Reason> {
    if ids == [] then [] else Repeated(ids[..|ids| - 1], id) + if ids[|ids| - 1] == id then [Forbidden] else []
  }

  function Lacking(tags: seq<Bytes>, node: NodeRecord): seq<Reason> {
    if tags == [] then [] else
    Lacking(tags[..|tags| - 1], node)
    + if tags[|tags| - 1] in node.capacity.tags then [] else [MissingTag(tags[|tags| - 1])]
  }

  function When(condition: bool, reason: Reason): seq<Reason> {
    if condition then [reason] else []
  }

  function HealthReasons(node: NodeRecord): seq<Reason> {
    When(node.health == Offline, IsOffline)
    + When(node.health == Draining, IsDraining)
    + When(node.health == Suspect, IsSuspect)
    + When(!node.connected && node.health != Online, NotConnected)
  }

  function CapacityReasons(task: ComputeTask, node: NodeRecord): seq<Reason> {
    var cap := Capability(node, task.requiredExecutor);
    When(!CapabilityCompatible(task, node), CapabilityMismatch)
    + When(cap.Some? && cap.value.slots < AsInt32(RequiredSlots(task)), InsufficientSlots)
    + When(task.scratchMemoryBytes > node.capacity.hostMemoryBytes, InsufficientScratch)
  }

  /** Why a node cannot take a task, in the order the reasons are found. */
  function Reasons(task: ComputeTask, node: NodeRecord): seq<Reason> {
    HealthReasons(node) + CapacityReasons(task, node) + Repeated(task.forbiddenNodes, node.id)
    + Lacking(task.requiredTags, node)
  }

  /** What it takes to be a candidate. */
  ghost predicate Eligible(task: ComputeTask, node: NodeRecord) {
    && node.health == Online
    && CapabilityCompatible(task, node)
    && Capability(node, task.requiredExecutor).value.slots >= AsInt32(RequiredSlots(task))
    && task.scratchMemoryBytes <= node.capacity.hostMemoryBytes
    && node.id !in task.forbiddenNodes
    && forall tag :: tag in task.requiredTags ==> tag in node.capacity.tags
  }

  lemma {:induction false} RepeatedIff(ids: seq<Id>, id: Id)
    ensures Repeated(ids, id) == [] <==> id !in ids
  {
    if ids != [] {
      RepeatedIff(ids[..|ids| - 1], id);
    }
  }

  lemma {:induction false} LackingIff(tags: seq<Bytes>, node: NodeRecord)
    ensures Lacking(tags, node) == [] <==> forall tag :: tag in tags ==> tag in node.capacity.tags
  {
    if tags != [] {
      LackingIff(tags[..|tags| - 1], node);
      assert tags == tags[..|tags| - 1] + [tags[|tags| - 1]];
    }
  }

  /** A node has no reason against it exactly when it is eligible. The connection is never
      decisive: an unconnected node is reported only when its health already excludes it. */
  lemma EligibleIff(task: ComputeTask, node: NodeRecord)
    ensures Reasons(task, node) == [] <==> Eligible(task, node)
  {
    RepeatedIff(task.forbiddenNodes, node.id);
    LackingIff(task.requiredTags, node);
    assert Reasons(task, node) == [] <==>
           && HealthReasons(node) == [] && CapacityReasons(task, node) == []
           && Repeated(task.forbiddenNodes, node.id) == [] && Lacking(task.requiredTags, node) == [];
    assert |CapacityReasons(task, node)| == 0 <==> CapacityReasons(task, node) == [];
    assert |HealthReasons(node)| == 0 <==> HealthReasons(node) == [];
  }

  /** An online node that is not connected is as eligible as if it were. */
  lemma ConnectionIgnored(task: ComputeTask, node: NodeRecord, connected: bool)
    ensures Reasons(task, node) == [] <==> Reasons(task, node.(connected := connected)) == []
  {
    EligibleIff(task, node);
    EligibleIff(task, node.(connected := connected));
  }

  /** An eligible node has the slots asked for exactly when the request, cast to a signed
      number, did not turn negative. */
  lemma SlotsSufficeIff(task: ComputeTask, node: NodeRecord)
    requires Reasons(task, node) == []
    ensures Capability(node, task.requiredExecutor).Some?
    ensures Capability(node, task.requiredExecutor).value.slots >= RequiredSlots(task) <==> RequiredSlots(task) < TWO_31
  {
    EligibleIff(task, node);
  }

  function OneSlot(): NodeRecord {
    NodeRecord(1, 0, 0, 0, Online, NodeCapacity(1, 0, [ExecutorCapability(CPU, [], 1, 0, 0, true)], map[]), 0, true)
  }

  /** A request that turned negative is wrongly accepted: 2^31 slots on a node with one. */
  lemma HugeRequestIsEligible()
    ensures var huge := Plain(1, [], TWO_31); Reasons(huge, OneSlot()) == [] && RequiredSlots(huge) == TWO_31
    ensures Capability(OneSlot(), CPU) == Some(ExecutorCapability(CPU, [], 1, 0, 0, true))
  {
    EligibleIff(Plain(1, [], TWO_31), OneSlot());
    hide Reasons;
  }

  // ----- scores -----

  datatype Policy = Baseline | CostAware

  datatype HistoryKey = HistoryKey(taskClass: Byte, backend: ExecutorType, node: Id)

  /** Counters are unbounded here. */
  datatype HistoryStats = HistoryStats(
    runs: nat,
    successes: nat,
    failures: nat,
    mean: real,
    recent: real,
    bytesTransferred: nat)

  const NO_HISTORY := HistoryStats(0, 0, 0, 0.0, 0.0, 0)

  type History = map<HistoryKey, HistoryStats>

  /** Everything a placement depends on. */
  datatype View = View(
    policy: Policy,
    model: CostModel,
    history: History,
    task: ComputeTask,
    nodes: map<Id, NodeRecord>,
    book: Book,
    at: Locations)

  ghost predicate Keyed(nodes: map<Id, NodeRecord>) {
    forall n :: n in nodes ==> nodes[n].id == n
  }

  /** The mean of past runs of the same class on the same backend and node, if any. */
  function Expected(history: History, task: ComputeTask, node: Id, x: Context): real {
    var key := HistoryKey(task.taskClass, task.requiredExecutor, node);
    if key in history && history[key].runs > 0 then history[key].mean else x.value(task.estimatedDuration)
  }

  ghost function Score(v: View, node: NodeRecord): real {
    if v.policy.Baseline?
    then TransferSeconds(v.at, v.task.stateDependencies, node.id, v.model.context)
         + v.model.context.value(v.task.estimatedDuration)
    else Costs(v.model, v.task, node, v.book, v.at,
               Duration(v.task, v.model.context, Expected(v.history, v.task, node.id, v.model.context))).total
  }

  ghost predicate Candidate(v: View, n: Id) {
    n in v.nodes && Eligible(v.task, v.nodes[n])
  }

  /** `n` comes before `m`: a smaller score, or the same score and a smaller id. */
  ghost predicate Before(v: View, n: Id, m: Id)
    requires n in v.nodes && m in v.nodes
  {
    var a, b := Score(v, v.nodes[n]), Score(v, v.nodes[m]);
    a < b || (a == b && n < m)
  }

  /** `n` is a candidate and comes before every other one. */
  ghost predicate IsChoice(v: View, n: Id) {
    Candidate(v, n) && forall m :: Candidate(v, m) && m != n ==> Before(v, n, m)
  }

  /** There is at most one choice. */
  lemma ChoiceUnique(v: View, n: Id, m: Id)
    requires IsChoice(v, n) && IsChoice(v, m)
    ensures n == m
  {
    hide Score, Eligible;
  }

  /** Nodes that did not win do not matter: taking one away leaves the choice. */
  lemma LosersDoNotMatter(v: View, n: Id, m: Id)
    requires IsChoice(v, n) && m != n
    ensures IsChoice(v.(nodes := v.nodes - {m}), n)
  {
    hide Eligible, Costs, TransferSeconds;
    var w := v.(nodes := v.nodes - {m});
    forall k | Candidate(w, k) && k != n
      ensures Before(w, n, k)
    {
      assert Candidate(v, k);
    }
  }

  /** Under the baseline policy the choice is the candidate that fetches its state
      soonest, the smallest id among equals. */
  lemma BaselineChoice(v: View, n: Id)
    requires v.policy.Baseline? && Keyed(v.nodes)
    ensures IsChoice(v, n) <==>
            && Candidate(v, n)
            && forall m :: Candidate(v, m) && m != n ==>
                 var a := TransferSeconds(v.at, v.task.stateDependencies, n, v.model.context);
                 var b := TransferSeconds(v.at, v.task.stateDependencies, m, v.model.context);
                 a < b || (a == b && n < m)
  {
    hide Eligible, TransferSeconds;
  }

  // ----- residency -----

  lemma HoldScore(v: View, s: Bytes, m: Id, node: NodeRecord)
    requires v.model.context.latency >= 0.0 && v.model.weights.transfer >= 0.0
    ensures Score(v.(at := Hold(v.at, s, m)), node) <= Score(v, node)
    ensures node.id != m ==> Score(v.(at := Hold(v.at, s, m)), node) == Score(v, node)
  {
    hide Hold, TransferSeconds, Costs;
    HoldTransfer(v.at, s, m, v.task.stateDependencies, node.id, v.model.context);
    HoldCosts(v.model, v.task, node, v.book, v.at, Duration(v.task, v.model.context, Expected(v.history, v.task, node.id, v.model.context)), s, m);
  }

  /** Making a piece of state resident on a node can only move the choice to that node. So
      making it resident on the chosen node moves nothing. */
  lemma ResidencyMoves(v: View, s: Bytes, m: Id, n: Id, k: Id)
    requires Keyed(v.nodes)
    requires v.model.context.latency >= 0.0 && v.model.weights.transfer >= 0.0
    requires IsChoice(v, n) && IsChoice(v.(at := Hold(v.at, s, m)), k)
    ensures k == n || k == m
  {
    hide Hold, Score, Eligible;
    var w := v.(at := Hold(v.at, s, m));
    HoldScore(v, s, m, v.nodes[n]);
    HoldScore(v, s, m, v.nodes[k]);
    assert Candidate(w, n) && Candidate(v, k);
  }

  lemma ResidencyKeepsChoice(v: View, s: Bytes, n: Id)
    requires Keyed(v.nodes)
    requires v.model.context.latency >= 0.0 && v.model.weights.transfer >= 0.0
    requires IsChoice(v, n)
    ensures IsChoice(v.(at := Hold(v.at, s, n)), n)
  {
    hide Hold, Score, Eligible;
    var w := v.(at := Hold(v.at, s, n));
    forall m | Candidate(w, m) && m != n
      ensures Before(w, n, m)
    {
      assert Candidate(v, m) && Before(v, n, m);
      HoldScore(v, s, n, v.nodes[n]);
      HoldScore(v, s, n, v.nodes[m]);
    }
  }

  /** Whenever some node is eligible there is a choice. */
  lemma {:induction false} ChoiceExists(v: View, n: Id)
    requires Candidate(v, n)
    ensures exists k :: IsChoice(v, k)
    decreases v.nodes.Keys
  {
    hide Eligible, Score;
    var w := v.(nodes := v.nodes - {n});
    if m :| Candidate(w, m) {
      ChoiceExists(w, m);
      var k :| IsChoice(w, k);
      SameScore(v, n, k);
      var best := if Before(v, n, k) then n else k;
      forall j | Candidate(v, j) && j != best
        ensures Before(v, best, j)
      {
        if j != n {
          assert Candidate(w, j);
          SameScore(v, n, j);
        }
      }
      assert IsChoice(v, best);
    } else {
      assert forall j :: Candidate(v, j) && j != n ==> Candidate(w, j);
      assert IsChoice(v, n);
    }
  }

  lemma SameScore(v: View, n: Id, k: Id)
    requires k in v.nodes
    ensures Score(v.(nodes := v.nodes - {n}), v.nodes[k]) == Score(v, v.nodes[k])
  {
    hide Costs, TransferSeconds;
  }

  // ----- candidates and exclusions -----

  /** A candidate as it is reported; `costs.total` is its score. */
  datatype Scored = Scored(nodeId: Id, executor: ExecutorType, device: Bytes, costs: Breakdown)

  datatype Excluded = Excluded(nodeId: Id, reasons: seq<Reason>)

  datatype Decision = Decision(
    feasible: bool,
    chosen: Option<Scored>,
    candidates: seq<Scored>,
    excluded: seq<Excluded>)

  const UNKNOWN: Bytes := [117, 110, 107, 110, 111, 119, 110]

  /** The baseline reports the cost terms with no pressure or affinity and scores by
      transfer time and duration alone. */
  ghost function Reported(v: View, node: NodeRecord): Breakdown {
    if v.policy.Baseline?
    then Costs(v.model, v.task, node, v.book, v.at, v.model.context.value(v.task.estimatedDuration))
         .(pressure := 0.0, affinity := 0.0, total := Score(v, node))
    else Costs(v.model, v.task, node, v.book, v.at, Duration(v.task, v.model.context, Expected(v.history, v.task, node.id, v.model.context)))
  }

  ghost function ScoredOf(v: View, node: NodeRecord): Scored {
    var cap := Capability(node, v.task.requiredExecutor);
    Scored(node.id,
           if cap.Some? then cap.value.kind else v.task.requiredExecutor,
           if cap.Some? then cap.value.name else UNKNOWN,
           Reported(v, node))
  }

  ghost function Candidates(v: View, ids: seq<Id>): seq<Scored>
    requires forall id :: id in ids ==> id in v.nodes
  {
    if ids == [] then [] else
    var node := v.nodes[ids[|ids| - 1]];
    Candidates(v, ids[..|ids| - 1]) + if Reasons(v.task, node) == [] then [ScoredOf(v, node)] else []
  }

  ghost function Exclusions(v: View, ids: seq<Id>): seq<Excluded>
    requires forall id :: id in ids ==> id in v.nodes
  {
    if ids == [] then [] else
    var node := v.nodes[ids[|ids| - 1]];
    Exclusions(v, ids[..|ids| - 1])
    + if Reasons(v.task, node) == [] then [] else [Excluded(node.id, Reasons(v.task, node))]
  }

  lemma LastApart<T>(q: seq<T>)
    requires q != []
    ensures q == q[..|q| - 1] + [q[|q| - 1]]
  {
  }

  lemma {:induction false} CandidatesAre(v: View, ids: seq<Id>)
    requires Keyed(v.nodes) && forall id :: id in ids ==> id in v.nodes
    ensures forall c :: c in Candidates(v, ids) <==>
              && c.nodeId in ids && Reasons(v.task, v.nodes[c.nodeId]) == []
              && c == ScoredOf(v, v.nodes[c.nodeId])
  {
    hide Reasons, Reported;
    if ids != [] {
      LastApart(ids);
      CandidatesAre(v, ids[..|ids| - 1]);
    }
  }

  lemma {:induction false} ExclusionsAre(v: View, ids: seq<Id>)
    requires Keyed(v.nodes) && forall id :: id in ids ==> id in v.nodes
    ensures forall x :: x in Exclusions(v, ids) <==>
              && x.nodeId in ids && x.reasons != []
              && x.reasons == Reasons(v.task, v.nodes[x.nodeId])
    ensures |Candidates(v, ids)| + |Exclusions(v, ids)| == |ids|
  {
    hide Reasons, Reported;
    if ids != [] {
      LastApart(ids);
      ExclusionsAre(v, ids[..|ids| - 1]);
    }
  }

  /** Candidates and exclusions partition the nodes: every node is one or the other and
      not both, and each is listed once. */
  lemma Partition(v: View)
    requires Keyed(v.nodes)
    ensures var ids := Walk(v.nodes.Keys);
            && (forall n :: (exists c :: c in Candidates(v, ids) && c.nodeId == n) <==> Candidate(v, n))
            && (forall n :: (exists x :: x in Exclusions(v, ids) && x.nodeId == n) <==>
                            n in v.nodes && !Candidate(v, n))
            && |Candidates(v, ids)| + |Exclusions(v, ids)| == |v.nodes|
  {
    hide Reasons, Eligible, Reported, Walk, Candidates, Exclusions;
    var ids := Walk(v.nodes.Keys);
    CandidatesAre(v, ids);
    ExclusionsAre(v, ids);
    forall n | n in v.nodes
      ensures Candidate(v, n) <==> Reasons(v.task, v.nodes[n]) == []
    {
      EligibleIff(v.task, v.nodes[n]);
    }
    forall n | Candidate(v, n)
      ensures exists c :: c in Candidates(v, ids) && c.nodeId == n
    {
      assert ScoredOf(v, v.nodes[n]) in Candidates(v, ids);
    }
    forall n | n in v.nodes && !Candidate(v, n)
      ensures exists x :: x in Exclusions(v, ids) && x.nodeId == n
    {
      assert Excluded(n, Reasons(v.task, v.nodes[n])) in Exclusions(v, ids);
    }
  }

  // ----- the engine -----

  predicate Better(a: Scored, b: Scored) {
    if a.costs.total != b.costs.total then a.costs.total < b.costs.total
    else if a.nodeId != b.nodeId then a.nodeId < b.nodeId
    else a.executor < b.executor
  }

  ghost predicate Ordered(cs: seq<Scored>) {
    forall i, j :: 0 <= i < j < |cs| ==> !Better(cs[j], cs[i])
  }

  /** Whatever does not beat `b` does not beat what beats `b`. */
  lemma NoOvertaking(a: Scored, b: Scored, c: Scored)
    requires Better(a, b) && !Better(c, b)
    ensures !Better(c, a)
  {
  }

  lemma Inserted(cs: seq<Scored>, c: Scored, i: nat)
    requires Ordered(cs) && i <= |cs| && (i < |cs| ==> Better(c, cs[i]))
    requires forall k :: 0 <= k < i ==> !Better(c, cs[k])
    ensures Ordered(cs[..i] + [c] + cs[i..])
  {
    hide Better;
    var r := cs[..i] + [c] + cs[i..];
    forall k | i <= k < |cs|
      ensures !Better(cs[k], c)
    {
      assert k > i ==> !Better(cs[k], cs[i]);
      if k == i {
        Asymmetric(c, cs[i]);
      } else {
        NoOvertaking(c, cs[i], cs[k]);
      }
    }
    assert forall k :: 0 <= k < |r| ==> r[k] == if k < i then cs[k] else if k == i then c else cs[k - 1];
  }

  lemma Asymmetric(a: Scored, b: Scored)
    requires Better(a, b)
    ensures !Better(b, a)
  {
  }

  method Insert(cs: seq<Scored>, c: Scored) returns (r: seq<Scored>)
    requires Ordered(cs)
    ensures Ordered(r) && multiset(r) == multiset(cs) + multiset{c}
  {
    hide Better, Ordered;
    var i := 0;
    while i < |cs| && !Better(c, cs[i])
      invariant 0 <= i <= |cs|
      invariant forall k :: 0 <= k < i ==> !Better(c, cs[k])
    {
      i := i + 1;
    }
    Inserted(cs, c, i);
    r := cs[..i] + [c] + cs[i..];
    assert cs == cs[..i] + cs[i..];
  }

  method Sort(cs: seq<Scored>) returns (r: seq<Scored>)
    ensures Ordered(r) && multiset(r) == multiset(cs)
  {
    r := [];
    for i := 0 to |cs|
      invariant Ordered(r) && multiset(r) == multiset(cs[..i])
    {
      assert cs[..i + 1] == cs[..i] + [cs[i]];
      r := Insert(r, cs[i]);
    }
    assert cs[..|cs|] == cs;
  }

  /** However the candidates are sorted, the front one is the choice. */
  lemma FrontIsChoice(v: View, cs: seq<Scored>, sorted: seq<Scored>)
    requires Keyed(v.nodes) && cs == Candidates(v, Walk(v.nodes.Keys))
    requires Ordered(sorted) && multiset(sorted) == multiset(cs) && sorted != []
    ensures IsChoice(v, sorted[0].nodeId) && sorted[0] == ScoredOf(v, v.nodes[sorted[0].nodeId])
  {
    hide Reasons, Eligible, Costs, TransferSeconds, Walk, Candidates;
    CandidatesAre(v, Walk(v.nodes.Keys));
    var n := sorted[0].nodeId;
    assert sorted[0] in multiset(sorted);
    EligibleIff(v.task, v.nodes[n]);
    forall m | Candidate(v, m) && m != n
      ensures Before(v, n, m)
    {
      EligibleIff(v.task, v.nodes[m]);
      var c := ScoredOf(v, v.nodes[m]);
      assert c in multiset(sorted);
      var j :| 0 <= j < |sorted| && sorted[j] == c;
      assert !Better(sorted[j], sorted[0]);
    }
  }

  lemma Onward(start: seq<Reason>, found: seq<Reason>, next: Reason)
    ensures (start + found) + [next] == start + (found + [next]) && start + (found + []) == start + found
  {
    assert found + [] == found;
  }

  lemma Larger(out: seq<Id>, ids: seq<Id>, i: nat)
    requires Ascending(out) && Ascending(ids) && i < |ids| && forall n :: n in out ==> n in ids[..i]
    ensures Ascending(out + [ids[i]])
  {
    forall k | 0 <= k < |out|
      ensures out[k] < ids[i]
    {
      assert out[k] in out;
      var j :| 0 <= j < i && ids[..i][j] == out[k];
      assert ids[j] < ids[i];
    }
  }

  class SchedulerPolicyEngine {
    var policy: Policy
    var model: CostModel
    var history: History

    constructor (model: CostModel)
      ensures policy == CostAware && this.model == model && history == map[]
    {
      policy, this.model, history := CostAware, model, map[];
    }

    ghost function Seen(task: ComputeTask, nodes: map<Id, NodeRecord>, book: ReservationRegistry, state: StateLocalityRegistry)
      : View
      reads this, book, state
    {
      View(policy, model, history, task, nodes, book.reservations, state.byId)
    }

    /** One more run: the mean is updated from the old mean and the count. */
    method RecordHistory(key: HistoryKey, run: Run)
      modifies this`history
      ensures history == old(history)[key := Recorded(if key in old(history) then old(history)[key] else NO_HISTORY, run)]
    {
      hide Blend;
      var s := if key in history then history[key] else NO_HISTORY;
      var runs := s.runs + 1;
      var total := s.mean * (runs - 1) as real;
      var mean := (total + run.duration) / runs as real;
      assert mean == Blend(s.mean, s.runs, run.duration) by { BlendFrom(s.mean, s.runs, runs, run.duration); }
      var next := HistoryStats(
        runs,
        if run.succeeded then s.successes + 1 else s.successes,
        if run.succeeded then s.failures else s.failures + 1,
        mean,
        run.duration,
        s.bytesTransferred + run.bytes);
      assert next == Recorded(s, run);
      history := history[key := next];
    }

    method ExclusionReasons(task: ComputeTask, node: NodeRecord) returns (r: seq<Reason>)
      ensures r == Reasons(task, node)
    {
      hide HealthReasons, CapacityReasons;
      r := HealthReasons(node) + CapacityReasons(task, node);
      ghost var start := r;
      for i := 0 to |task.forbiddenNodes|
        invariant r == start + Repeated(task.forbiddenNodes[..i], node.id)
      {
        assert task.forbiddenNodes[..i + 1][..i] == task.forbiddenNodes[..i];
        Onward(start, Repeated(task.forbiddenNodes[..i], node.id), Forbidden);
        if task.forbiddenNodes[i] == node.id {
          r := r + [Forbidden];
        }
      }
      assert task.forbiddenNodes[..|task.forbiddenNodes|] == task.forbiddenNodes;
      start := r;
      for i := 0 to |task.requiredTags|
        invariant r == start + Lacking(task.requiredTags[..i], node)
      {
        assert task.requiredTags[..i + 1][..i] == task.requiredTags[..i];
        Onward(start, Lacking(task.requiredTags[..i], node), MissingTag(task.requiredTags[i]));
        if task.requiredTags[i] !in node.capacity.tags {
          r := r + [MissingTag(task.requiredTags[i])];
        }
      }
      assert task.requiredTags[..|task.requiredTags|] == task.requiredTags;
    }

    /** The ids of the eligible nodes, ascending. */
    method EligibleNodes(task: ComputeTask, nodes: map<Id, NodeRecord>) returns (out: seq<Id>)
      ensures Ascending(out)
      ensures forall n :: n in out <==> n in nodes && Eligible(task, nodes[n])
    {
      hide Eligible, Reasons, Walk;
      out := [];
      var ids := Walk(nodes.Keys);
      for i := 0 to |ids|
        invariant Ascending(out)
        invariant forall n :: n in out <==> n in ids[..i] && Eligible(task, nodes[n])
      {
        assert ids[..i + 1] == ids[..i] + [ids[i]];
        var reasons := ExclusionReasons(task, nodes[ids[i]]);
        EligibleIff(task, nodes[ids[i]]);
        if reasons == [] {
          Larger(out, ids, i);
          out := out + [ids[i]];
        }
      }
      assert ids[..|ids|] == ids;
    }

    method ScoreNode(task: ComputeTask, nodes: map<Id, NodeRecord>, node: NodeRecord, book: ReservationRegistry,
                     state: StateLocalityRegistry) returns (c: Scored)
      requires Reasons(task, node) == []
      ensures c == ScoredOf(Seen(task, nodes, book, state), node)
    {
      EligibleIff(task, node);
      var cap := Capability(node, task.requiredExecutor);
      var costs;
      if policy.Baseline? {
        var transfer := state.SumTransfer(task, node.id, model.context);
        var b := Evaluate(model, task, node, book, state, -1.0);
        costs := b.(pressure := 0.0, affinity := 0.0, total := transfer + model.context.value(task.estimatedDuration));
      } else {
        costs := Evaluate(model, task, node, book, state, Expected(history, task, node.id, model.context));
      }
      c := Scored(node.id, cap.value.kind, cap.value.name, costs);
    }

    /** Score or exclude every node, in id order. */
    method Survey(task: ComputeTask, nodes: map<Id, NodeRecord>, book: ReservationRegistry, state: StateLocalityRegistry)
      returns (candidates: seq<Scored>, excluded: seq<Excluded>)
      ensures candidates == Candidates(Seen(task, nodes, book, state), Walk(nodes.Keys))
      ensures excluded == Exclusions(Seen(task, nodes, book, state), Walk(nodes.Keys))
    {
      hide Reasons, ScoredOf, Walk;
      candidates, excluded := [], [];
      var ids := Walk(nodes.Keys);
      ghost var v := Seen(task, nodes, book, state);
      for i := 0 to |ids|
        invariant candidates == Candidates(v, ids[..i]) && excluded == Exclusions(v, ids[..i])
      {
        assert ids[..i + 1][..i] == ids[..i];
        var node := nodes[ids[i]];
        var reasons := ExclusionReasons(task, node);
        if reasons != [] {
          excluded := excluded + [Excluded(node.id, reasons)];
        } else {
          var c := ScoreNode(task, nodes, node, book, state);
          candidates := candidates + [c];
        }
      }
      assert ids[..|ids|] == ids;
    }

    /** The whole placement: survey, sort, take the front. */
    method Place(task: ComputeTask, nodes: map<Id, NodeRecord>, book: ReservationRegistry, state: StateLocalityRegistry)
      returns (d: Decision)
      requires Keyed(nodes)
      ensures var v := Seen(task, nodes, book, state);
              && d.candidates == Candidates(v, Walk(nodes.Keys))
              && d.excluded == Exclusions(v, Walk(nodes.Keys))
              && (d.feasible <==> exists n :: Candidate(v, n))
              && (d.chosen.Some? <==> d.feasible)
              && (d.feasible ==> IsChoice(v, d.chosen.value.nodeId)
                                 && d.chosen.value == ScoredOf(v, nodes[d.chosen.value.nodeId]))
    {
      hide Reasons, ScoredOf, Walk, Candidates, Exclusions, Eligible, Score;
      var candidates, excluded := Survey(task, nodes, book, state);
      ghost var v := Seen(task, nodes, book, state);
      if candidates == [] {
        Partition(v);
        return Decision(false, None, candidates, excluded);
      }
      var sorted := Sort(candidates);
      assert |multiset(sorted)| == |multiset(candidates)|;
      FrontIsChoice(v, candidates, sorted);
      assert Candidate(v, sorted[0].nodeId);
      d := Decision(true, Some(sorted[0]), candidates, excluded);
    }
  }

  // ----- history -----

  datatype Run = Run(duration: real, succeeded: bool, bytes: nat)

  /** The mean after one more run, from the mean of the first `n`. */
  function Blend(mean: real, n: nat, d: real): real {
    (mean * n as real + d) / (n + 1) as real
  }

  function Recorded(s: HistoryStats, run: Run): HistoryStats {
    HistoryStats(
      s.runs + 1,
      s.successes + if run.succeeded then 1 else 0,
      s.failures + if run.succeeded then 0 else 1,
      Blend(s.mean, s.runs, run.duration),
      run.duration,
      s.bytesTransferred + run.bytes)
  }

  function Recall(runs: seq<Run>): HistoryStats {
    if runs == [] then NO_HISTORY else Recorded(Recall(runs[..|runs| - 1]), runs[|runs| - 1])
  }

  function Spent(runs: seq<Run>): real {
    if runs == [] then 0.0 else Spent(runs[..|runs| - 1]) + runs[|runs| - 1].duration
  }

  function Succeeded(runs: seq<Run>): nat {
    |set i | 0 <= i < |runs| && runs[i].succeeded|
  }

  lemma OneMoreRun(runs: seq<Run>, run: Run)
    ensures Succeeded(runs + [run]) == Succeeded(runs) + if run.succeeded then 1 else 0
  {
    var before := set i | 0 <= i < |runs| && runs[i].succeeded;
    var after := set i | 0 <= i < |runs + [run]| && (runs + [run])[i].succeeded;
    assert after == before + if run.succeeded then {|runs|} else {};
  }

  function Moved(runs: seq<Run>): nat {
    if runs == [] then 0 else Moved(runs[..|runs| - 1]) + runs[|runs| - 1].bytes
  }

  lemma Undo(a: real, n: nat)
    requires n > 0
    ensures (a / n as real) * n as real == a
  {
  }

  /** Blending a duration into the average of the earlier ones gives the new average. */
  lemma BlendAverages(mean: real, n: nat, spent: real, d: real)
    requires if n == 0 then spent == 0.0 else mean == spent / n as real
    ensures Blend(mean, n, d) == (spent + d) / (n + 1) as real
  {
    if n > 0 {
      Undo(spent, n);
    }
  }

  lemma BlendFrom(mean: real, n: nat, runs: nat, d: real)
    requires runs == n + 1
    ensures (mean * (runs - 1) as real + d) / runs as real == Blend(mean, n, d)
  {
    assert (runs - 1) as real == n as real;
  }

  /** The running mean is the average of every run recorded; each run was counted as what it
      was, a success or a failure, with its bytes; the last one is remembered. */
  lemma {:induction false} MeanIsAverage(runs: seq<Run>)
    ensures Recall(runs).runs == |runs| == Recall(runs).successes + Recall(runs).failures
    ensures runs != [] ==> Recall(runs).mean == Spent(runs) / |runs| as real
    ensures runs != [] ==> Recall(runs).recent == runs[|runs| - 1].duration
    ensures Recall(runs).successes == Succeeded(runs) && Recall(runs).bytesTransferred == Moved(runs)
  {
    hide Blend;
    if runs != [] {
      var front := runs[..|runs| - 1];
      MeanIsAverage(front);
      assert runs == front + [runs[|runs| - 1]];
      OneMoreRun(front, runs[|runs| - 1]);
      BlendAverages(Recall(front).mean, |front|, Spent(front), runs[|runs| - 1].duration);
    }
  }
}
