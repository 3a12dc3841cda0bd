/**
 The cost of running a task on a node, over the reals: where its state is held,
 what fetching or rebuilding it takes, how loaded the node is. Rounding of
 doubles is not modelled.
 */
module CostModels {
  import opened Basics
  import opened Types
  import opened Reservations

  /** Where a piece of state is held. */
  datatype StateLocation = StateLocation(
    stateId: Bytes,
    generation: Bytes,
    sizeBytes: U64,
    residentNodes: seq<Id>,
    localityQuality: Float64,
    transferEstimate: Float64,
    recomputeEstimate: Float64)

  type Locations = map<Bytes, StateLocation>

  datatype Weights = Weights(
    execution: real,
    queue: real,
    transfer: real,
    recompute: real,
    pressure: real,
    affinity: real,
    capability: real)

  /** `value` is how the pattern of a double reads as a number; a negative estimate means none
      was given. */
  datatype Context = Context(
    bandwidth: real,
    latency: real,
    pressureThreshold: real,
    pressureWeight: real,
    value: Float64 -> real)

  datatype CostModel = CostModel(weights: Weights, context: Context)

  datatype Breakdown = Breakdown(
    execution: real,
    queue: real,
    transfer: real,
    recompute: real,
    pressure: real,
    affinity: real,
    capability: real,
    total: real,
    localityScore: real,
    pressureScore: real)

  // ----- where state is held -----

  predicate ResidentOn(at: Locations, stateId: Bytes, node: Id) {
    stateId in at && node in at[stateId].residentNodes
  }

  /** The size on record, or the one the task declares. */
  function BytesOf(at: Locations, d: StateDependency): U64 {
    if d.stateId in at then at[d.stateId].sizeBytes else d.sizeBytes
  }

  /** Seconds to bring in a piece of state the node does not hold: the task's own
      estimate, else the recorded one, else size over bandwidth plus latency. */
  function FetchSeconds(at: Locations, d: StateDependency, x: Context): real {
    if x.value(d.transferEstimate) >= 0.0 then x.value(d.transferEstimate)
    else if d.stateId in at && x.value(at[d.stateId].transferEstimate) >= 0.0 then x.value(at[d.stateId].transferEstimate)
    else (if x.bandwidth > 0.0 then BytesOf(at, d) as real / x.bandwidth else 0.0) + x.latency
  }

  function RebuildSeconds(at: Locations, d: StateDependency, x: Context): real {
    if x.value(d.recomputeEstimate) >= 0.0 then x.value(d.recomputeEstimate)
    else if d.stateId in at && x.value(at[d.stateId].recomputeEstimate) >= 0.0
      then x.value(at[d.stateId].recomputeEstimate)
    else 0.0
  }

  function TransferSeconds(at: Locations, ds: seq<StateDependency>, node: Id, x: Context): real {
    if ds == [] then 0.0 else
    var d := ds[|ds| - 1];
    TransferSeconds(at, ds[..|ds| - 1], node, x)
    + if ResidentOn(at, d.stateId, node) then 0.0 else FetchSeconds(at, d, x)
  }

  function RecomputeSeconds(at: Locations, ds: seq<StateDependency>, x: Context): real {
    if ds == [] then 0.0 else RecomputeSeconds(at, ds[..|ds| - 1], x) + RebuildSeconds(at, ds[|ds| - 1], x)
  }

  function TotalBytes(at: Locations, ds: seq<StateDependency>): nat {
    if ds == [] then 0 else TotalBytes(at, ds[..|ds| - 1]) + BytesOf(at, ds[|ds| - 1])
  }

  function ResidentBytes(at: Locations, ds: seq<StateDependency>, node: Id): nat {
    if ds == [] then 0 else
    var d := ds[|ds| - 1];
    ResidentBytes(at, ds[..|ds| - 1], node) + if ResidentOn(at, d.stateId, node) then BytesOf(at, d) else 0
  }

  function LocalityScore(at: Locations, ds: seq<StateDependency>, node: Id): real {
    if TotalBytes(at, ds) == 0 then 1.0
    else ResidentBytes(at, ds, node) as real / TotalBytes(at, ds) as real
  }

  /** Every dependency that has any bytes is held by the node. */
  ghost predicate AllLocal(at: Locations, ds: seq<StateDependency>, node: Id) {
    forall i :: 0 <= i < |ds| && BytesOf(at, ds[i]) > 0 ==> ResidentOn(at, ds[i].stateId, node)
  }

  lemma {:induction false} ResidentWithinTotal(at: Locations, ds: seq<StateDependency>, node: Id)
    ensures ResidentBytes(at, ds, node) <= TotalBytes(at, ds)
    ensures ResidentBytes(at, ds, node) == TotalBytes(at, ds) <==> AllLocal(at, ds, node)
  {
    if ds != [] {
      var front, d := ds[..|ds| - 1], ds[|ds| - 1];
      ResidentWithinTotal(at, front, node);
      assert forall i :: 0 <= i < |front| ==> ds[i] == front[i];
      assert AllLocal(at, ds, node) <==>
             AllLocal(at, front, node) && (BytesOf(at, d) > 0 ==> ResidentOn(at, d.stateId, node));
    }
  }

  lemma Ratio(a: nat, b: nat)
    requires a <= b && b > 0
    ensures 0.0 <= a as real / b as real <= 1.0
    ensures a as real / b as real == 1.0 <==> a == b
  {
    var q := a as real / b as real;
    assert q * b as real == a as real;
  }

  /** The locality score lies between 0 and 1, and is 1 exactly when nothing with any
      bytes would have to be fetched. */
  lemma LocalityRange(at: Locations, ds: seq<StateDependency>, node: Id)
    ensures 0.0 <= LocalityScore(at, ds, node) <= 1.0
    ensures LocalityScore(at, ds, node) == 1.0 <==> AllLocal(at, ds, node)
  {
    ResidentWithinTotal(at, ds, node);
    if TotalBytes(at, ds) > 0 {
      Ratio(ResidentBytes(at, ds, node), TotalBytes(at, ds));
    }
  }

  /** Record that a node now also holds a known piece of state. */
  function Hold(at: Locations, stateId: Bytes, node: Id): Locations {
    if stateId in at
    then at[stateId := at[stateId].(residentNodes := at[stateId].residentNodes + [node])]
    else at
  }

  lemma Quotient(a: nat, b: real)
    requires b > 0.0
    ensures a as real / b >= 0.0
  {
    var q := a as real / b;
    assert q * b == a as real;
  }

  lemma FetchNonNegative(at: Locations, d: StateDependency, x: Context)
    requires x.latency >= 0.0
    ensures FetchSeconds(at, d, x) >= 0.0
  {
    if x.bandwidth > 0.0 {
      Quotient(BytesOf(at, d), x.bandwidth);
    }
  }

  lemma HoldOne(at: Locations, s: Bytes, m: Id, d: StateDependency, n: Id, x: Context)
    ensures FetchSeconds(Hold(at, s, m), d, x) == FetchSeconds(at, d, x)
    ensures RebuildSeconds(Hold(at, s, m), d, x) == RebuildSeconds(at, d, x)
    ensures ResidentOn(at, d.stateId, n) ==> ResidentOn(Hold(at, s, m), d.stateId, n)
    ensures n != m ==> ResidentOn(at, d.stateId, n) == ResidentOn(Hold(at, s, m), d.stateId, n)
  {
  }

  /** Holding more state on `m` never makes `m` dearer to reach, and changes nothing for
      any other node. */
  lemma {:induction false} HoldTransfer(at: Locations, s: Bytes, m: Id, ds: seq<StateDependency>, n: Id, x: Context)
    requires x.latency >= 0.0
    ensures TransferSeconds(Hold(at, s, m), ds, n, x) <= TransferSeconds(at, ds, n, x)
    ensures n != m ==> TransferSeconds(Hold(at, s, m), ds, n, x) == TransferSeconds(at, ds, n, x)
  {
    hide Hold, FetchSeconds, ResidentOn;
    if ds != [] {
      var d := ds[|ds| - 1];
      HoldTransfer(at, s, m, ds[..|ds| - 1], n, x);
      HoldOne(at, s, m, d, n, x);
      FetchNonNegative(at, d, x);
    }
  }

  lemma {:induction false} HoldRecompute(at: Locations, s: Bytes, m: Id, ds: seq<StateDependency>, x: Context)
    ensures RecomputeSeconds(Hold(at, s, m), ds, x) == RecomputeSeconds(at, ds, x)
  {
    hide Hold, RebuildSeconds;
    if ds != [] {
      HoldRecompute(at, s, m, ds[..|ds| - 1], x);
      HoldOne(at, s, m, ds[|ds| - 1], m, x);
    }
  }

  // ----- what a submission makes known -----

  function LocationOf(d: StateDependency): StateLocation {
    StateLocation(d.stateId, d.generation, d.sizeBytes, d.residentNodes, d.localityQuality, d.transferEstimate,
                  d.recomputeEstimate)
  }

  function Registered(at: Locations, ds: seq<StateDependency>): Locations {
    if ds == [] then at else
    var d := ds[|ds| - 1];
    Registered(at, ds[..|ds| - 1])[d.stateId := LocationOf(d)]
  }

  /** The location says what the dependency does. */
  ghost predicate Describes(l: StateLocation, d: StateDependency) {
    && l.stateId == d.stateId && l.generation == d.generation && l.sizeBytes == d.sizeBytes
    && l.residentNodes == d.residentNodes && l.localityQuality == d.localityQuality
    && l.transferEstimate == d.transferEstimate && l.recomputeEstimate == d.recomputeEstimate
  }

  /** The last dependency of the list on that state. */
  function LastOn(ds: seq<StateDependency>, stateId: Bytes): (r: Option<StateDependency>)
    ensures r.Some? ==> r.value in ds && r.value.stateId == stateId
    ensures r.None? ==> forall d :: d in ds ==> d.stateId != stateId
  {
    if ds == [] then None
    else if ds[|ds| - 1].stateId == stateId then Some(ds[|ds| - 1]) else LastOn(ds[..|ds| - 1], stateId)
  }

  /** A submission's word on a state replaces what was known of it, residents included; it
      says nothing of states it does not depend on. */
  lemma {:induction false} RegisteredSays(at: Locations, ds: seq<StateDependency>, s: Bytes, n: Id)
    ensures ResidentOn(Registered(at, ds), s, n) <==>
            if LastOn(ds, s).Some? then n in LastOn(ds, s).value.residentNodes else ResidentOn(at, s, n)
    ensures forall d :: d in ds ==> d.stateId in Registered(at, ds)
    ensures LastOn(ds, s).None? ==> (s in Registered(at, ds) <==> s in at) && (s in at ==> Registered(at, ds)[s] == at[s])
    ensures LastOn(ds, s).Some? ==> s in Registered(at, ds) && Describes(Registered(at, ds)[s], LastOn(ds, s).value)
  {
    if ds != [] {
      RegisteredSays(at, ds[..|ds| - 1], s, n);
    }
  }

  /** The registry of known locations. */
  class StateLocalityRegistry {
    var byId: Locations

    constructor ()
      ensures byId == map[]
    {
      byId := map[];
    }

    method Upsert(location: StateLocation)
      modifies this
      ensures byId == old(byId)[location.stateId := location]
      ensures forall s, n :: ResidentOn(byId, s, n) <==>
                if s == location.stateId then n in location.residentNodes else ResidentOn(old(byId), s, n)
    {
      byId := byId[location.stateId := location];
    }

    method Remove(stateId: Bytes)
      modifies this
      ensures byId == old(byId) - {stateId}
      ensures forall s, n :: ResidentOn(byId, s, n) <==> s != stateId && ResidentOn(old(byId), s, n)
    {
      byId := byId - {stateId};
    }

    /** What a submission does: an entry for each dependency of the task. */
    method Register(task: ComputeTask)
      modifies this
      ensures byId == Registered(old(byId), task.stateDependencies)
    {
      var ds := task.stateDependencies;
      for i := 0 to |ds|
        invariant byId == Registered(old(byId), ds[..i])
      {
        assert ds[..i + 1][..i] == ds[..i];
        Upsert(LocationOf(ds[i]));
      }
      assert ds[..|ds|] == ds;
    }

    method CheckResident(stateId: Bytes, node: Id) returns (held: bool)
      ensures held == ResidentOn(byId, stateId, node)
    {
      if stateId !in byId {
        return false;
      }
      var nodes := byId[stateId].residentNodes;
      for i := 0 to |nodes|
        invariant node !in nodes[..i]
      {
        if nodes[i] == node {
          return true;
        }
      }
      assert nodes[..|nodes|] == nodes;
      return false;
    }

    method SumTransfer(task: ComputeTask, node: Id, x: Context) returns (total: real)
      ensures total == TransferSeconds(byId, task.stateDependencies, node, x)
    {
      var ds := task.stateDependencies;
      total := 0.0;
      for i := 0 to |ds|
        invariant total == TransferSeconds(byId, ds[..i], node, x)
      {
        assert ds[..i + 1][..i] == ds[..i];
        var held := CheckResident(ds[i].stateId, node);
        if !held {
          if x.value(ds[i].transferEstimate) >= 0.0 {
            total := total + x.value(ds[i].transferEstimate);
          } else if ds[i].stateId in byId && x.value(byId[ds[i].stateId].transferEstimate) >= 0.0 {
            total := total + x.value(byId[ds[i].stateId].transferEstimate);
          } else {
            var bytes := if ds[i].stateId in byId then byId[ds[i].stateId].sizeBytes else ds[i].sizeBytes;
            if x.bandwidth > 0.0 {
              total := total + bytes as real / x.bandwidth;
            }
            total := total + x.latency;
          }
        }
      }
      assert ds[..|ds|] == ds;
    }

    method SumRecompute(task: ComputeTask, x: Context) returns (total: real)
      ensures total == RecomputeSeconds(byId, task.stateDependencies, x)
    {
      var ds := task.stateDependencies;
      total := 0.0;
      for i := 0 to |ds|
        invariant total == RecomputeSeconds(byId, ds[..i], x)
      {
        assert ds[..i + 1][..i] == ds[..i];
        if x.value(ds[i].recomputeEstimate) >= 0.0 {
          total := total + x.value(ds[i].recomputeEstimate);
        } else if ds[i].stateId in byId && x.value(byId[ds[i].stateId].recomputeEstimate) >= 0.0 {
          total := total + x.value(byId[ds[i].stateId].recomputeEstimate);
        }
      }
      assert ds[..|ds|] == ds;
    }

    method MeasureLocality(task: ComputeTask, node: Id) returns (score: real)
      ensures score == LocalityScore(byId, task.stateDependencies, node)
    {
      var ds := task.stateDependencies;
      if ds == [] {
        return 1.0;
      }
      var resident, total := 0, 0;
      for i := 0 to |ds|
        invariant resident == ResidentBytes(byId, ds[..i], node)
        invariant total == TotalBytes(byId, ds[..i])
      {
        assert ds[..i + 1][..i] == ds[..i];
        var bytes := if ds[i].stateId in byId then byId[ds[i].stateId].sizeBytes else ds[i].sizeBytes;
        total := total + bytes;
        var held := CheckResident(ds[i].stateId, node);
        if held {
          resident := resident + bytes;
        }
      }
      assert ds[..|ds|] == ds;
      if total <= 0 {
        return 1.0;
      }
      return resident as real / total as real;
    }
  }

  // ----- how loaded a node is -----

  /** A task that takes any executor is given the CPU one. */
  function Capability(node: NodeRecord, kind: ExecutorType): Option<ExecutorCapability> {
    FindExecutor(node.capacity.executors, if kind == ANY_EXECUTOR then CPU else kind)
  }

  /** The CPU executor is pressed by everything on its node, any other by its own slots. */
  function Pressing(node: Id, kind: ExecutorType): Meter {
    if kind == CPU then NodeSlots(node) else ExecutorSlots(node, kind)
  }

  ghost function Pressure(node: NodeRecord, kind: ExecutorType, m: Book): real {
    var cap := Capability(node, kind);
    if cap.None? || cap.value.slots <= 0 then 1.0 else
    var ratio := Wrap(Pressing(node.id, kind), Usage(m, Pressing(node.id, kind))) as real / cap.value.slots as real;
    if ratio < 1.0 then ratio else 1.0
  }

  /** The pressure score lies between 0 and 1; it is 0 exactly on a node whose counted
      slots come to 0, and 1 exactly when they fill the executor. */
  lemma PressureRange(node: NodeRecord, kind: ExecutorType, m: Book)
    ensures 0.0 <= Pressure(node, kind, m) <= 1.0
    ensures var cap := Capability(node, kind);
            var used := Wrap(Pressing(node.id, kind), Usage(m, Pressing(node.id, kind)));
            cap.Some? && cap.value.slots > 0 ==>
              && (Pressure(node, kind, m) == 0.0 <==> used == 0)
              && (Pressure(node, kind, m) == 1.0 <==> used >= cap.value.slots)
  {
    var cap := Capability(node, kind);
    if cap.Some? && cap.value.slots > 0 {
      var used := Wrap(Pressing(node.id, kind), Usage(m, Pressing(node.id, kind)));
      var ratio := used as real / cap.value.slots as real;
      Quotient(used, cap.value.slots as real);
      assert ratio * cap.value.slots as real == used as real;
      FullRatio(used, cap.value.slots);
    }
  }

  lemma FullRatio(a: nat, b: nat)
    requires b > 0
    ensures a as real / b as real >= 1.0 <==> a >= b
    ensures a as real / b as real == 0.0 <==> a == 0
  {
    var q := a as real / b as real;
    assert q * b as real == a as real;
    if q >= 1.0 {
      assert (q - 1.0) * b as real >= 0.0;
    } else {
      assert (1.0 - q) * b as real > 0.0;
    }
  }

  predicate IsLive(r: Reservation, node: Id) {
    !r.released && r.nodeId == node
  }

  /** Live reservations on a node. */
  function LiveOn(m: Book, node: Id): set<Id> {
    set r | r in m && IsLive(m[r], node)
  }

  function NonNegative(d: real): real {
    if d < 0.0 then 0.0 else d
  }

  function Times(n: nat, x: real): real {
    n as real * x
  }

  /** Each live reservation on the node is taken to last as long as the task itself. */
  function QueueSeconds(m: Book, node: Id, duration: real): real {
    Times(|LiveOn(m, node)|, NonNegative(duration))
  }

  ghost function LiveAmong(m: Book, node: Id, ids: seq<Id>): set<Id> {
    set r | r in ids && r in LiveOn(m, node)
  }

  lemma LiveNext(m: Book, node: Id, ids: seq<Id>, i: nat)
    requires Ascending(ids) && i < |ids| && ids[i] in m
    ensures |LiveAmong(m, node, ids[..i + 1])|
            == |LiveAmong(m, node, ids[..i])| + if IsLive(m[ids[i]], node) then 1 else 0
  {
    var before, after := LiveAmong(m, node, ids[..i]), LiveAmong(m, node, ids[..i + 1]);
    assert ids[i] !in ids[..i];
    assert ids[..i + 1] == ids[..i] + [ids[i]];
    if ids[i] in LiveOn(m, node) {
      assert after == before + {ids[i]};
    } else {
      assert after == before;
    }
  }

  lemma LiveAll(m: Book, node: Id, ids: seq<Id>)
    requires forall r :: r in m ==> r in ids
    ensures LiveAmong(m, node, ids) == LiveOn(m, node)
  {
  }

  method SumQueue(m: Book, node: Id, duration: real) returns (total: real)
    ensures total == QueueSeconds(m, node, duration)
  {
    hide Times, LiveOn, LiveAmong, Ascending;
    var ids := Walk(m.Keys);
    total := 0.0;
    NoneYet(m, node, ids, NonNegative(duration));
    ghost var n: nat := 0;
    for i := 0 to |ids|
      invariant n == |LiveAmong(m, node, ids[..i])|
      invariant total == Times(n, NonNegative(duration))
    {
      LiveNext(m, node, ids, i);
      if IsLive(m[ids[i]], node) {
        OneMore(n, NonNegative(duration));
        total := total + (if 0.0 < duration then duration else 0.0);
        n := n + 1;
      }
    }
    assert ids[..|ids|] == ids;
    LiveAll(m, node, ids);
  }

  lemma NoneYet(m: Book, node: Id, ids: seq<Id>, x: real)
    ensures |LiveAmong(m, node, ids[..0])| == 0 && Times(0, x) == 0.0
  {
  }

  lemma OneMore(n: nat, x: real)
    ensures Times(n + 1, x) == Times(n, x) + x
  {
  }

  method MeasurePressure(node: NodeRecord, kind: ExecutorType, book: ReservationRegistry) returns (score: real)
    ensures score == Pressure(node, kind, book.reservations)
  {
    var cap := Capability(node, kind);
    if cap.None? || cap.value.slots <= 0 {
      return 1.0;
    }
    var used := Accumulate(book.reservations, Pressing(node.id, kind));
    var ratio := used as real / cap.value.slots as real;
    return if ratio < 1.0 then ratio else 1.0;
  }

  // ----- the whole cost -----

  function MissingTags(node: NodeRecord, tags: seq<Bytes>): nat {
    if tags == [] then 0
    else MissingTags(node, tags[..|tags| - 1]) + if tags[|tags| - 1] in node.capacity.tags then 0 else 1
  }

  /** A tenth of a second off for each time the node is preferred, and on for each
      preferred tag it lacks. */
  function Affinity(task: ComputeTask, node: NodeRecord): real {
    0.1 * MissingTags(node, task.preferredTags) as real - 0.1 * multiset(task.preferredNodes)[node.id] as real
  }

  method SumAffinity(task: ComputeTask, node: NodeRecord) returns (delta: real)
    ensures delta == Affinity(task, node)
  {
    var nodes, tags := task.preferredNodes, task.preferredTags;
    delta := 0.0;
    for i := 0 to |nodes|
      invariant delta == - 0.1 * multiset(nodes[..i])[node.id] as real
    {
      assert nodes[..i + 1] == nodes[..i] + [nodes[i]];
      if nodes[i] == node.id {
        delta := delta - 0.1;
      }
    }
    assert nodes[..|nodes|] == nodes;
    for i := 0 to |tags|
      invariant delta == 0.1 * MissingTags(node, tags[..i]) as real - 0.1 * multiset(nodes)[node.id] as real
    {
      assert tags[..i + 1][..i] == tags[..i];
      if tags[i] !in node.capacity.tags {
        delta := delta + 0.1;
      }
    }
    assert tags[..|tags|] == tags;
  }

  function Penalty(model: CostModel, pressure: real): real {
    if pressure > model.context.pressureThreshold
    then (pressure - model.context.pressureThreshold) * model.context.pressureWeight * model.weights.pressure
    else 0.0
  }

  /** A duration estimate of the caller's is used when it is not negative. */
  function Duration(task: ComputeTask, x: Context, estimate: real): real {
    if estimate >= 0.0 then estimate else x.value(task.estimatedDuration)
  }

  /** The cost of a task on a node that has a matching executor, term by term. */
  ghost function Costs(model: CostModel, task: ComputeTask, node: NodeRecord, m: Book, at: Locations, duration: real)
    : (b: Breakdown)
    ensures b.total == b.execution + b.queue + b.transfer + b.recompute + b.pressure + b.affinity
  {
    var execution := duration * model.weights.execution;
    var queue := QueueSeconds(m, node.id, model.context.value(task.estimatedDuration)) * model.weights.queue;
    var transfer := TransferSeconds(at, task.stateDependencies, node.id, model.context) * model.weights.transfer;
    var recompute := RecomputeSeconds(at, task.stateDependencies, model.context) * model.weights.recompute;
    var score := Pressure(node, task.requiredExecutor, m);
    var pressure := Penalty(model, score);
    var affinity := Affinity(task, node) * model.weights.affinity;
    Breakdown(execution, queue, transfer, recompute, pressure, affinity, 0.0,
              execution + queue + transfer + recompute + pressure + affinity,
              LocalityScore(at, task.stateDependencies, node.id), score)
  }

  /** Without a matching executor nothing is computed and the total is the capability
      weight alone; with one, that weight never enters. */
  method Evaluate(model: CostModel, task: ComputeTask, node: NodeRecord, book: ReservationRegistry,
                  state: StateLocalityRegistry, estimate: real) returns (b: Breakdown)
    ensures Capability(node, task.requiredExecutor).None? ==>
              b.total == model.weights.capability && b.capability == b.total
    ensures Capability(node, task.requiredExecutor).Some? ==>
              b == Costs(model, task, node, book.reservations, state.byId, Duration(task, model.context, estimate))
  {
    hide Affinity, QueueSeconds, TransferSeconds, RecomputeSeconds, Pressure, LocalityScore;
    if Capability(node, task.requiredExecutor).None? {
      var w := model.weights.capability;
      return Breakdown(0.0, 0.0, 0.0, 0.0, 0.0, 0.0, w, w, 0.0, 0.0);
    }
    var execution := Duration(task, model.context, estimate) * model.weights.execution;
    var queue := SumQueue(book.reservations, node.id, model.context.value(task.estimatedDuration));
    var transfer := state.SumTransfer(task, node.id, model.context);
    var recompute := state.SumRecompute(task, model.context);
    var score := MeasurePressure(node, task.requiredExecutor, book);
    var pressure := 0.0;
    if score > model.context.pressureThreshold {
      pressure := (score - model.context.pressureThreshold) * model.context.pressureWeight * model.weights.pressure;
    }
    var affinity := SumAffinity(task, node);
    var locality := state.MeasureLocality(task, node.id);
    var q, t, r, a := queue * model.weights.queue, transfer * model.weights.transfer,
      recompute * model.weights.recompute, affinity * model.weights.affinity;
    b := Breakdown(execution, q, t, r, pressure, a, 0.0, execution + q + t + r + pressure + a, locality, score);
  }

  lemma Scale(a: real, b: real, w: real)
    requires a <= b && w >= 0.0
    ensures a * w <= b * w
  {
  }

  /** Everything in the total but the transfer term. */
  ghost function Rest(model: CostModel, task: ComputeTask, node: NodeRecord, m: Book, at: Locations, duration: real): real {
    duration * model.weights.execution
    + QueueSeconds(m, node.id, model.context.value(task.estimatedDuration)) * model.weights.queue
    + RecomputeSeconds(at, task.stateDependencies, model.context) * model.weights.recompute
    + Penalty(model, Pressure(node, task.requiredExecutor, m))
    + Affinity(task, node) * model.weights.affinity
  }

  lemma TotalParts(model: CostModel, task: ComputeTask, node: NodeRecord, m: Book, at: Locations, duration: real)
    ensures Costs(model, task, node, m, at, duration).total
            == Rest(model, task, node, m, at, duration)
               + TransferSeconds(at, task.stateDependencies, node.id, model.context) * model.weights.transfer
  {
    hide Affinity, QueueSeconds, TransferSeconds, RecomputeSeconds, Pressure, LocalityScore, Penalty;
  }

  lemma HoldRest(model: CostModel, task: ComputeTask, node: NodeRecord, b: Book, at: Locations, duration: real, s: Bytes, m: Id)
    ensures Rest(model, task, node, b, Hold(at, s, m), duration) == Rest(model, task, node, b, at, duration)
  {
    hide Affinity, QueueSeconds, RecomputeSeconds, Pressure, Hold, Penalty;
    HoldRecompute(at, s, m, task.stateDependencies, model.context);
  }

  /** Holding more state on `m` never raises the cost of `m` and leaves the cost of every
      other node as it was. */
  lemma HoldCosts(model: CostModel, task: ComputeTask, node: NodeRecord, b: Book, at: Locations, duration: real, s: Bytes, m: Id)
    requires model.context.latency >= 0.0 && model.weights.transfer >= 0.0
    ensures Costs(model, task, node, b, Hold(at, s, m), duration).total <= Costs(model, task, node, b, at, duration).total
    ensures node.id != m ==>
              Costs(model, task, node, b, Hold(at, s, m), duration).total == Costs(model, task, node, b, at, duration).total
  {
    hide Costs, Rest, TransferSeconds, Hold;
    TotalParts(model, task, node, b, at, duration);
    TotalParts(model, task, node, b, Hold(at, s, m), duration);
    HoldRest(model, task, node, b, at, duration, s, m);
    HoldTransfer(at, s, m, task.stateDependencies, node.id, model.context);
    Scale(TransferSeconds(Hold(at, s, m), task.stateDependencies, node.id, model.context),
          TransferSeconds(at, task.stateDependencies, node.id, model.context), model.weights.transfer);
  }
}
