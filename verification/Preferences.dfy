/**
 What moves the choice of a node and what does not: preferences, a further state dependency,
 a longer run, load and history, each said of the total cost or of the choice itself.
 */
module Preferences {
  import opened Basics
  import opened Types
  import opened Reservations
  import opened CostModels
  import opened Placement

  // ----- preferred nodes -----

  /** The task with a node named once more as preferred. */
  function Prefer(task: ComputeTask, m: Id): ComputeTask {
    task.(preferredNodes := task.preferredNodes + [m])
  }

  /** The task with one more preferred tag. */
  function Want(task: ComputeTask, tag: Bytes): ComputeTask {
    task.(preferredTags := task.preferredTags + [tag])
  }

  lemma Difference(a: real, b: real, w: real)
    ensures (a - b) * w == a * w - b * w
  {
  }

  /** Two tasks that differ in their preferences alone. */
  lemma Bias(model: CostModel, task: ComputeTask, other: ComputeTask, node: NodeRecord, m: Book, at: Locations, duration: real)
    requires other == task.(preferredNodes := other.preferredNodes, preferredTags := other.preferredTags)
    ensures Costs(model, other, node, m, at, duration).total
            == Costs(model, task, node, m, at, duration).total
               + (Affinity(other, node) - Affinity(task, node)) * model.weights.affinity
  {
    hide Affinity, QueueSeconds, TransferSeconds, RecomputeSeconds, Pressure, LocalityScore, Penalty;
    Difference(Affinity(other, node), Affinity(task, node), model.weights.affinity);
  }

  lemma PreferBias(task: ComputeTask, node: NodeRecord, m: Id)
    ensures Affinity(Prefer(task, m), node) == Affinity(task, node) - (if node.id == m then 0.1 else 0.0)
  {
    assert multiset(task.preferredNodes + [m]) == multiset(task.preferredNodes) + multiset{m};
  }

  lemma WantBias(task: ComputeTask, node: NodeRecord, tag: Bytes)
    ensures Affinity(Want(task, tag), node) == Affinity(task, node) + (if tag in node.capacity.tags then 0.0 else 0.1)
  {
    assert (task.preferredTags + [tag])[..|task.preferredTags|] == task.preferredTags;
  }

  /** Naming a node once more as preferred takes a tenth of the affinity weight off its cost and
      leaves that of every other node. */
  lemma PreferCosts(model: CostModel, task: ComputeTask, node: NodeRecord, b: Book, at: Locations, duration: real, m: Id)
    ensures Costs(model, Prefer(task, m), node, b, at, duration).total
            == Costs(model, task, node, b, at, duration).total - (if node.id == m then 0.1 * model.weights.affinity else 0.0)
  {
    hide Costs, Affinity;
    Bias(model, task, Prefer(task, m), node, b, at, duration);
    PreferBias(task, node, m);
  }

  /** A further preferred tag costs nothing on a node that has it and a tenth of the affinity
      weight on one that lacks it. */
  lemma WantCosts(model: CostModel, task: ComputeTask, node: NodeRecord, b: Book, at: Locations, duration: real, tag: Bytes)
    ensures Costs(model, Want(task, tag), node, b, at, duration).total
            == Costs(model, task, node, b, at, duration).total
               + (if tag in node.capacity.tags then 0.0 else 0.1 * model.weights.affinity)
  {
    hide Costs, Affinity;
    Bias(model, task, Want(task, tag), node, b, at, duration);
    WantBias(task, node, tag);
  }

  lemma PreferScore(v: View, m: Id, node: NodeRecord)
    ensures Score(v.(task := Prefer(v.task, m)), node)
            == Score(v, node) - (if v.policy.CostAware? && node.id == m then 0.1 * v.model.weights.affinity else 0.0)
  {
    PreferCosts(v.model, v.task, node, v.book, v.at,
                Duration(v.task, v.model.context, Expected(v.history, v.task, node.id, v.model.context)), m);
    hide Costs, TransferSeconds;
  }

  lemma WantScore(v: View, tag: Bytes, node: NodeRecord)
    ensures Score(v.(task := Want(v.task, tag)), node)
            == Score(v, node)
               + (if v.policy.Baseline? || tag in node.capacity.tags then 0.0 else 0.1 * v.model.weights.affinity)
  {
    WantCosts(v.model, v.task, node, v.book, v.at,
              Duration(v.task, v.model.context, Expected(v.history, v.task, node.id, v.model.context)), tag);
    hide Costs, TransferSeconds;
  }

  lemma SameCandidates(v: View, m: Id, tag: Bytes, n: Id)
    ensures Candidate(v.(task := Prefer(v.task, m)), n) <==> Candidate(v, n)
    ensures Candidate(v.(task := Want(v.task, tag)), n) <==> Candidate(v, n)
  {
  }

  /** Preferring the chosen node keeps the choice. */
  lemma PreferringKeepsChoice(v: View, n: Id)
    requires Keyed(v.nodes) && v.model.weights.affinity >= 0.0 && IsChoice(v, n)
    ensures IsChoice(v.(task := Prefer(v.task, n)), n)
  {
    var w := v.(task := Prefer(v.task, n));
    SameCandidates(v, n, [], n);
    forall m | Candidate(w, m) && m != n ensures Before(w, n, m) {
      SameCandidates(v, n, [], m);
      assert Before(v, n, m);
      hide Score, Eligible;
      PreferScore(v, n, v.nodes[n]);
      PreferScore(v, n, v.nodes[m]);
    }
  }

  /** Preferring a node can move the choice only to that node. */
  lemma PreferringMoves(v: View, m: Id, n: Id, k: Id)
    requires Keyed(v.nodes) && v.model.weights.affinity >= 0.0
    requires IsChoice(v, n) && IsChoice(v.(task := Prefer(v.task, m)), k)
    ensures k == n || k == m
  {
    var w := v.(task := Prefer(v.task, m));
    SameCandidates(v, m, [], n);
    SameCandidates(v, m, [], k);
    hide Score, Eligible;
    PreferScore(v, m, v.nodes[n]);
    PreferScore(v, m, v.nodes[k]);
    assert Candidate(w, n) && Candidate(v, k);
  }

  /** And it does move it there exactly when a tenth of the weight makes up for the difference:
      among equals the preferred node wins whatever its id. */
  lemma PreferenceDecidesIff(v: View, n: Id, k: Id)
    requires Keyed(v.nodes) && v.policy.CostAware? && IsChoice(v, n) && Candidate(v, k) && k != n
    ensures var saved := Score(v, v.nodes[k]) - 0.1 * v.model.weights.affinity;
            IsChoice(v.(task := Prefer(v.task, k)), k) <==>
              saved < Score(v, v.nodes[n]) || (saved == Score(v, v.nodes[n]) && k < n)
  {
    var w := v.(task := Prefer(v.task, k));
    forall m ensures Candidate(w, m) <==> Candidate(v, m) { SameCandidates(v, k, [], m); }
    forall m | m in v.nodes
      ensures Score(w, v.nodes[m]) == Score(v, v.nodes[m]) - (if m == k then 0.1 * v.model.weights.affinity else 0.0)
    {
      PreferScore(v, k, v.nodes[m]);
    }
    hide Score, Eligible;
    var saved := Score(v, v.nodes[k]) - 0.1 * v.model.weights.affinity;
    if saved < Score(v, v.nodes[n]) || (saved == Score(v, v.nodes[n]) && k < n) {
      forall m | Candidate(w, m) && m != k ensures Before(w, k, m) {
        assert m != n ==> Before(v, n, m);
      }
    } else {
      assert Candidate(w, n) && !Before(w, k, n);
    }
  }

  /** Wanting a tag the chosen node has keeps the choice. */
  lemma WantingKeepsChoice(v: View, tag: Bytes, n: Id)
    requires Keyed(v.nodes) && v.model.weights.affinity >= 0.0
    requires IsChoice(v, n) && tag in v.nodes[n].capacity.tags
    ensures IsChoice(v.(task := Want(v.task, tag)), n)
  {
    var w := v.(task := Want(v.task, tag));
    SameCandidates(v, n, tag, n);
    forall m | Candidate(w, m) && m != n ensures Before(w, n, m) {
      SameCandidates(v, n, tag, m);
      assert Before(v, n, m);
      hide Score, Eligible;
      WantScore(v, tag, v.nodes[n]);
      WantScore(v, tag, v.nodes[m]);
    }
  }

  // ----- durations and history -----

  /** A longer run costs its difference times the execution weight, on every node alike. */
  lemma DurationCosts(model: CostModel, task: ComputeTask, node: NodeRecord, b: Book, at: Locations, d1: real, d2: real)
    ensures Costs(model, task, node, b, at, d2).total - Costs(model, task, node, b, at, d1).total
            == (d2 - d1) * model.weights.execution
  {
    hide Affinity, QueueSeconds, TransferSeconds, RecomputeSeconds, Pressure, LocalityScore, Penalty;
  }

  function KeyOf(task: ComputeTask, node: NodeRecord): HistoryKey {
    HistoryKey(task.taskClass, task.requiredExecutor, node.id)
  }

  /** Runs on record for its class, executor and node take the place of the task's own estimate:
      their average decides. The record of any other key changes nothing, nor does any record
      under the baseline policy. */
  lemma HistoryDecides(v: View, key: HistoryKey, runs: seq<Run>, node: NodeRecord)
    requires runs != []
    ensures var w := v.(history := v.history[key := Recall(runs)]);
            && (v.policy.CostAware? && key == KeyOf(v.task, node) && Spent(runs) >= 0.0 ==>
                  Score(w, node) == Costs(v.model, v.task, node, v.book, v.at, Spent(runs) / |runs| as real).total)
            && (v.policy.Baseline? || key != KeyOf(v.task, node) ==> Score(w, node) == Score(v, node))
  {
    hide Costs, TransferSeconds, Recall, Spent;
    MeanIsAverage(runs);
    AverageSign(Spent(runs), |runs|);
  }

  lemma AverageSign(a: real, n: nat)
    requires n > 0
    ensures a >= 0.0 ==> a / n as real >= 0.0
  {
    var q := a / n as real;
    assert q * n as real == a;
  }

  // ----- state dependencies -----

  /** The task with one more state dependency. */
  function Need(task: ComputeTask, d: StateDependency): ComputeTask {
    task.(stateDependencies := task.stateDependencies + [d])
  }

  lemma Distribute(a: real, b: real, w: real)
    ensures (a + b) * w == a * w + b * w
  {
  }

  lemma NeedBias(task: ComputeTask, node: NodeRecord, d: StateDependency)
    ensures Affinity(Need(task, d), node) == Affinity(task, node)
  {
  }

  lemma NeedRest(model: CostModel, task: ComputeTask, node: NodeRecord, b: Book, at: Locations, duration: real, d: StateDependency)
    ensures Rest(model, Need(task, d), node, b, at, duration)
            == Rest(model, task, node, b, at, duration) + Rebuilt(at, d, model.context) * model.weights.recompute
  {
    hide Affinity, QueueSeconds, Pressure, Penalty, RecomputeSeconds, TransferSeconds, Rebuilt;
    NeedBias(task, node, d);
    NeedTransfer(at, task.stateDependencies, d, node.id, model.context);
    Distribute(RecomputeSeconds(at, task.stateDependencies, model.context), Rebuilt(at, d, model.context),
               model.weights.recompute);
  }

  /** One more state dependency costs, in transfer, nothing where the state is held, and
      otherwise the first of: its own estimate, the estimate on record, the bytes over the
      bandwidth plus the latency; and in recomputing the first estimate there is, wherever the
      task goes. */
  lemma NeedCosts(model: CostModel, task: ComputeTask, node: NodeRecord, b: Book, at: Locations, duration: real, d: StateDependency)
    ensures Costs(model, Need(task, d), node, b, at, duration).total - Costs(model, task, node, b, at, duration).total
            == Fetched(at, d, node.id, model.context) * model.weights.transfer
               + Rebuilt(at, d, model.context) * model.weights.recompute
  {
    hide Costs, Rest, TransferSeconds, RecomputeSeconds, Fetched, Rebuilt;
    TotalParts(model, task, node, b, at, duration);
    TotalParts(model, Need(task, d), node, b, at, duration);
    NeedRest(model, task, node, b, at, duration, d);
    NeedTransfer(at, task.stateDependencies, d, node.id, model.context);
    Distribute(TransferSeconds(at, task.stateDependencies, node.id, model.context), Fetched(at, d, node.id, model.context),
               model.weights.transfer);
  }

  lemma NeedTransfer(at: Locations, ds: seq<StateDependency>, d: StateDependency, n: Id, x: Context)
    ensures TransferSeconds(at, ds + [d], n, x) == TransferSeconds(at, ds, n, x) + Fetched(at, d, n, x)
    ensures RecomputeSeconds(at, ds + [d], x) == RecomputeSeconds(at, ds, x) + Rebuilt(at, d, x)
  {
    assert (ds + [d])[..|ds|] == ds;
    FetchedIs(at, d, n, x);
    hide ResidentOn, FetchSeconds, RebuildSeconds, Fetched, Rebuilt;
  }

  /** An estimate, if one was given. */
  function Given(estimate: real): Option<real> {
    if estimate >= 0.0 then Some(estimate) else None
  }

  function OnFile(at: Locations, d: StateDependency, x: Context): Option<real> {
    if d.stateId in at then Given(x.value(at[d.stateId].transferEstimate)) else None
  }

  function Fetched(at: Locations, d: StateDependency, n: Id, x: Context): real {
    if d.stateId in at && n in at[d.stateId].residentNodes then 0.0
    else match Given(x.value(d.transferEstimate))
         case Some(own) => own
         case None =>
           match OnFile(at, d, x)
           case Some(recorded) => recorded
           case None =>
             var bytes := if d.stateId in at then at[d.stateId].sizeBytes else d.sizeBytes;
             x.latency + if x.bandwidth <= 0.0 then 0.0 else bytes as real / x.bandwidth
  }

  function Rebuilt(at: Locations, d: StateDependency, x: Context): real {
    match Given(x.value(d.recomputeEstimate))
    case Some(own) => own
    case None => if d.stateId in at && Given(x.value(at[d.stateId].recomputeEstimate)).Some?
                 then x.value(at[d.stateId].recomputeEstimate) else 0.0
  }

  lemma FetchedIs(at: Locations, d: StateDependency, n: Id, x: Context)
    ensures Fetched(at, d, n, x) == if ResidentOn(at, d.stateId, n) then 0.0 else FetchSeconds(at, d, x)
    ensures Rebuilt(at, d, x) == RebuildSeconds(at, d, x)
  {
  }

  // ----- load -----

  lemma ReserveMeter(m: Book, meter: Meter, k: Id, r: Reservation)
    requires k !in m
    ensures Usage(m[k := r], meter) == Usage(m, meter) + Weight(meter, r)
  {
    UsageUpdate(m, meter, k, r);
  }

  lemma ReserveQueue(m: Book, k: Id, r: Reservation, node: Id, duration: real)
    requires k !in m
    ensures QueueSeconds(m[k := r], node, duration)
            == QueueSeconds(m, node, duration) + if IsLive(r, node) then NonNegative(duration) else 0.0
  {
    var before, after := LiveOn(m, node), LiveOn(m[k := r], node);
    if IsLive(r, node) {
      assert after == before + {k} && k !in before;
      OneMore(|before|, NonNegative(duration));
      assert |after| == |before| + 1;
    } else {
      assert after == before;
    }
  }

  /** A reservation on one node changes nothing in the costs of another. */
  lemma LoadElsewhere(model: CostModel, task: ComputeTask, node: NodeRecord, m: Book, at: Locations, duration: real, k: Id, r: Reservation)
    requires k !in m && r.nodeId != node.id
    ensures Costs(model, task, node, m[k := r], at, duration) == Costs(model, task, node, m, at, duration)
  {
    hide Usage, QueueSeconds, Pressure, Affinity, TransferSeconds, RecomputeSeconds, LocalityScore, Penalty;
    SamePressure(node, task.requiredExecutor, m, k, r);
    ReserveQueue(m, k, r, node.id, model.context.value(task.estimatedDuration));
  }

  lemma SamePressure(node: NodeRecord, kind: ExecutorType, m: Book, k: Id, r: Reservation)
    requires k !in m && r.nodeId != node.id
    ensures Pressure(node, kind, m[k := r]) == Pressure(node, kind, m)
  {
    hide Usage, Capability;
    ReserveMeter(m, Pressing(node.id, kind), k, r);
  }

  /** The share of an executor that is used, at most all of it. */
  function Share(used: nat, slots: nat): real
    requires slots > 0
  {
    if used < slots then used as real / slots as real else 1.0
  }

  /** The slots that press on an executor: of the whole node for the CPU, of its own otherwise;
      summed in 32 bits. */
  ghost function Counted(node: NodeRecord, kind: ExecutorType, m: Book): nat {
    Usage(m, if kind == CPU then NodeSlots(node.id) else ExecutorSlots(node.id, kind)) % TWO_32
  }

  lemma ShareIs(node: NodeRecord, kind: ExecutorType, m: Book)
    requires Capability(node, kind).Some? && Capability(node, kind).value.slots > 0
    ensures Pressure(node, kind, m) == Share(Counted(node, kind, m), Capability(node, kind).value.slots)
  {
    hide Usage, Capability;
    FullRatio(Counted(node, kind, m), Capability(node, kind).value.slots);
  }

  lemma ShareTimes(used: nat, slots: nat)
    requires slots > 0
    ensures Times(slots, Share(used, slots)) == Lesser(used, slots) as real
  {
  }

  function Lesser(a: nat, b: nat): nat {
    if a < b then a else b
  }

  lemma Smaller(x: real, y: real, n: nat)
    requires n > 0 && Times(n, x) <= Times(n, y)
    ensures x <= y
  {
  }

  lemma ShareGrows(a: nat, b: nat, slots: nat)
    requires a <= b && slots > 0
    ensures Share(a, slots) <= Share(b, slots)
  {
    hide Share, Times;
    ShareTimes(a, slots);
    ShareTimes(b, slots);
    Smaller(Share(a, slots), Share(b, slots), slots);
  }

  lemma CountedGrows(node: NodeRecord, kind: ExecutorType, m: Book, k: Id, r: Reservation)
    requires k !in m
    requires Usage(m, Pressing(node.id, kind)) + Weight(Pressing(node.id, kind), r) < TWO_32
    ensures Counted(node, kind, m) <= Counted(node, kind, m[k := r])
  {
    hide Usage, Weight;
    ReserveMeter(m, Pressing(node.id, kind), k, r);
  }

  lemma PressureGrows(node: NodeRecord, kind: ExecutorType, m: Book, k: Id, r: Reservation)
    requires k !in m
    requires Usage(m, Pressing(node.id, kind)) + Weight(Pressing(node.id, kind), r) < TWO_32
    ensures Pressure(node, kind, m) <= Pressure(node, kind, m[k := r])
  {
    var cap := Capability(node, kind);
    CountedGrows(node, kind, m, k, r);
    if cap.Some? && cap.value.slots > 0 {
      hide Usage, Weight, Counted, Capability, Pressure, Share;
      ShareIs(node, kind, m);
      ShareIs(node, kind, m[k := r]);
      ShareGrows(Counted(node, kind, m), Counted(node, kind, m[k := r]), cap.value.slots);
    } else {
      hide Usage, Weight, Counted, Capability;
    }
  }

  lemma PenaltyGrows(model: CostModel, a: real, b: real)
    requires a <= b && model.context.pressureWeight >= 0.0 && model.weights.pressure >= 0.0
    ensures Penalty(model, a) <= Penalty(model, b)
  {
    var t, p, w := model.context.pressureThreshold, model.context.pressureWeight, model.weights.pressure;
    if a > t {
      Scale(a - t, b - t, p);
      Scale((a - t) * p, (b - t) * p, w);
    } else if b > t {
      Scale(0.0, b - t, p);
      Scale(0.0, (b - t) * p, w);
    }
  }

  /** A live reservation on a node puts the task's duration, if it is not negative, on its queue
      and, as long as the 32-bit sum does not wrap, never lowers its cost. */
  lemma LoadHere(model: CostModel, task: ComputeTask, node: NodeRecord, m: Book, at: Locations, duration: real, k: Id, r: Reservation)
    requires k !in m && r.nodeId == node.id && !r.released
    requires model.weights.queue >= 0.0 && model.context.pressureWeight >= 0.0 && model.weights.pressure >= 0.0
    requires Usage(m, NodeSlots(node.id)) + r.slots < TWO_32
    ensures var before, after := Costs(model, task, node, m, at, duration), Costs(model, task, node, m[k := r], at, duration);
            var estimate := model.context.value(task.estimatedDuration);
            && after.queue == before.queue + (if estimate > 0.0 then estimate else 0.0) * model.weights.queue
            && after.total - before.total >= after.queue - before.queue >= 0.0
  {
    var kind, estimate := task.requiredExecutor, model.context.value(task.estimatedDuration);
    hide Usage, Costs, Penalty, Pressure;
    PressureRises(node, kind, m, k, r);
    PenaltyGrows(model, Pressure(node, kind, m), Pressure(node, kind, m[k := r]));
    QueueTerm(model, task, node, m, at, duration);
    QueueTerm(model, task, node, m[k := r], at, duration);
    PressureTerm(model, task, node, m, at, duration);
    PressureTerm(model, task, node, m[k := r], at, duration);
    OtherTerms(model, task, node, m, m[k := r], at, duration);
    Queued(m, k, r, node.id, estimate, model.weights.queue);
  }

  lemma QueueTerm(model: CostModel, task: ComputeTask, node: NodeRecord, m: Book, at: Locations, duration: real)
    ensures Costs(model, task, node, m, at, duration).queue
            == QueueSeconds(m, node.id, model.context.value(task.estimatedDuration)) * model.weights.queue
  {
    hide Pressure, Penalty, QueueSeconds, Affinity, TransferSeconds, RecomputeSeconds, LocalityScore;
  }

  /** All terms but those of queue and pressure are the same whatever is reserved. */
  lemma OtherTerms(model: CostModel, task: ComputeTask, node: NodeRecord, m: Book, m1: Book, at: Locations, duration: real)
    ensures var a, b := Costs(model, task, node, m, at, duration), Costs(model, task, node, m1, at, duration);
            b.total - a.total == (b.queue - a.queue) + (b.pressure - a.pressure)
  {
    hide Pressure, Penalty, QueueSeconds, Affinity, TransferSeconds, RecomputeSeconds, LocalityScore;
  }

  lemma Queued(m: Book, k: Id, r: Reservation, node: Id, estimate: real, w: real)
    requires k !in m && IsLive(r, node) && w >= 0.0
    ensures QueueSeconds(m[k := r], node, estimate) * w
            == QueueSeconds(m, node, estimate) * w + (if estimate > 0.0 then estimate else 0.0) * w
    ensures (if estimate > 0.0 then estimate else 0.0) * w >= 0.0
  {
    hide QueueSeconds;
    ReserveQueue(m, k, r, node, estimate);
    Distribute(QueueSeconds(m, node, estimate), NonNegative(estimate), w);
    Scale(0.0, NonNegative(estimate), w);
  }

  lemma PressureRises(node: NodeRecord, kind: ExecutorType, m: Book, k: Id, r: Reservation)
    requires k !in m && r.nodeId == node.id && Usage(m, NodeSlots(node.id)) + r.slots < TWO_32
    ensures Pressure(node, kind, m) <= Pressure(node, kind, m[k := r])
  {
    hide Usage, Pressure;
    ExecutorWithinNode(m, node.id, kind);
    PressureGrows(node, kind, m, k, r);
  }

  /** So a reservation never draws the choice to its node: any other node that was chosen still is. */
  lemma LoadRepels(v: View, n: Id, k: Id, r: Reservation)
    requires Keyed(v.nodes) && IsChoice(v, n) && k !in v.book && r.nodeId != n && !r.released
    requires v.model.weights.queue >= 0.0 && v.model.context.pressureWeight >= 0.0 && v.model.weights.pressure >= 0.0
    requires Usage(v.book, NodeSlots(r.nodeId)) + r.slots < TWO_32
    ensures IsChoice(v.(book := v.book[k := r]), n)
  {
    var w := v.(book := v.book[k := r]);
    LoadedScore(v, k, r, v.nodes[n]);
    forall m | Candidate(w, m) && m != n ensures Before(w, n, m) {
      assert Candidate(v, m) && Before(v, n, m);
      LoadedScore(v, k, r, v.nodes[m]);
    }
  }

  lemma LoadedScore(v: View, k: Id, r: Reservation, node: NodeRecord)
    requires k !in v.book && !r.released
    requires v.model.weights.queue >= 0.0 && v.model.context.pressureWeight >= 0.0 && v.model.weights.pressure >= 0.0
    requires Usage(v.book, NodeSlots(r.nodeId)) + r.slots < TWO_32
    ensures Score(v.(book := v.book[k := r]), node) >= Score(v, node)
    ensures r.nodeId != node.id ==> Score(v.(book := v.book[k := r]), node) == Score(v, node)
  {
    var d := Duration(v.task, v.model.context, Expected(v.history, v.task, node.id, v.model.context));
    if r.nodeId == node.id {
      LoadHere(v.model, v.task, node, v.book, v.at, d, k, r);
    } else {
      LoadElsewhere(v.model, v.task, node, v.book, v.at, d, k, r);
    }
    hide Costs, TransferSeconds, Usage;
  }

  /** What pressure costs, times the slots offered: the excess of the slots used over the
      threshold's share of those offered, weighted, if there is an excess. */
  function Due(model: CostModel, used: nat, slots: nat): real {
    var excess := used as real - Times(slots, model.context.pressureThreshold);
    if excess > 0.0 then excess * model.context.pressureWeight * model.weights.pressure else 0.0
  }

  /** A node pays for pressure exactly when its counted slots exceed the threshold's share of
      those its executor offers, and then in proportion to the excess, up to a full executor. */
  lemma PressureCosts(model: CostModel, task: ComputeTask, node: NodeRecord, m: Book, at: Locations, duration: real)
    requires Capability(node, task.requiredExecutor).Some? && Capability(node, task.requiredExecutor).value.slots > 0
    ensures var slots := Capability(node, task.requiredExecutor).value.slots;
            Times(slots, Costs(model, task, node, m, at, duration).pressure)
              == Due(model, Lesser(Counted(node, task.requiredExecutor, m), slots), slots)
  {
    var kind := task.requiredExecutor;
    var slots, counted := Capability(node, kind).value.slots, Counted(node, kind, m);
    hide Counted, Share, Capability, Pressure, Penalty, Costs, Due, Times, Lesser;
    PressureTerm(model, task, node, m, at, duration);
    ShareIs(node, kind, m);
    ShareTimes(counted, slots);
    PenaltyTimes(model, Share(counted, slots), Lesser(counted, slots), slots);
  }

  lemma PressureTerm(model: CostModel, task: ComputeTask, node: NodeRecord, m: Book, at: Locations, duration: real)
    ensures Costs(model, task, node, m, at, duration).pressure == Penalty(model, Pressure(node, task.requiredExecutor, m))
  {
    hide Pressure, Penalty, QueueSeconds, Affinity, TransferSeconds, RecomputeSeconds, LocalityScore;
  }

  lemma PenaltyTimes(model: CostModel, p: real, used: nat, slots: nat)
    requires slots > 0 && Times(slots, p) == used as real
    ensures Times(slots, Penalty(model, p)) == Due(model, used, slots)
  {
    Excess(p, model.context.pressureThreshold, slots, model.context.pressureWeight, model.weights.pressure);
    hide Times;
  }

  lemma Excess(p: real, t: real, n: nat, a: real, b: real)
    requires n > 0
    ensures p > t <==> Times(n, p) - Times(n, t) > 0.0
    ensures Times(n, (p - t) * a * b) == (Times(n, p) - Times(n, t)) * a * b
    ensures Times(n, 0.0) == 0.0
  {
    Sign(p - t, n);
    TimesDifference(n, p, t);
    Associates(n as real, p - t, a, b);
  }

  lemma Sign(x: real, n: nat)
    requires n > 0
    ensures x > 0.0 <==> Times(n, x) > 0.0
  {
  }

  lemma TimesDifference(n: nat, p: real, t: real)
    ensures Times(n, p - t) == Times(n, p) - Times(n, t)
  {
  }

  lemma Associates(n: real, x: real, a: real, b: real)
    ensures n * (x * a * b) == n * x * a * b
  {
  }

  // ----- eligibility, reason by reason -----

  /** The first executor of that kind, in the order the node lists them. */
  ghost predicate FirstOf(node: NodeRecord, kind: ExecutorType, i: nat) {
    && i < |node.capacity.executors| && node.capacity.executors[i].kind == kind
    && forall j :: 0 <= j < i ==> node.capacity.executors[j].kind != kind
  }

  lemma {:induction false} FindsFirst(executors: seq<ExecutorCapability>, kind: ExecutorType) returns (i: nat)
    ensures i <= |executors| && (FindExecutor(executors, kind).None? ==> i == |executors|)
    ensures forall j :: 0 <= j < i ==> executors[j].kind != kind
    ensures FindExecutor(executors, kind).Some? ==>
              i < |executors| && executors[i].kind == kind && FindExecutor(executors, kind).value == executors[i]
    decreases |executors|
  {
    if executors == [] || executors[0].kind == kind {
      i := 0;
    } else {
      var k := FindsFirst(executors[1..], kind);
      i := k + 1;
      assert forall j :: 0 < j < i ==> executors[j] == executors[1..][j - 1];
    }
  }

  /** The executor a task of that kind would get is the first of it; a task that takes any gets
      the first CPU executor. */
  lemma CapabilityIs(node: NodeRecord, kind: ExecutorType, i: nat)
    requires FirstOf(node, if kind == ANY_EXECUTOR then CPU else kind, i)
    ensures Capability(node, kind) == Some(node.capacity.executors[i])
  {
    var k := FindsFirst(node.capacity.executors, if kind == ANY_EXECUTOR then CPU else kind);
  }

  /** An executor that does for the task: healthy, with slots at all, and of the compute capability
      a CUDA task asks for. */
  ghost predicate Does(task: ComputeTask, x: ExecutorCapability) {
    && x.healthy && x.slots > 0
    && (task.requiredExecutor == CUDA && task.minCapabilityMajor != 0 ==>
          !(x.major < task.minCapabilityMajor) && !(x.major == task.minCapabilityMajor && x.minor < task.minCapabilityMinor))
  }

  /** The slots a task asks of the executor it requires. */
  function Asked(task: ComputeTask): U32 {
    if task.requiredExecutor == CUDA then task.requiredGpuSlots else task.requiredCpuSlots
  }

  lemma HealthSays(node: NodeRecord, r: Reason)
    ensures r in HealthReasons(node) <==>
            || (r == IsOffline && node.health == Offline) || (r == IsDraining && node.health == Draining)
            || (r == IsSuspect && node.health == Suspect)
            || (r == NotConnected && !node.connected && node.health != Online)
  {
  }

  lemma DoesIs(task: ComputeTask, node: NodeRecord, x: ExecutorCapability)
    requires Capability(node, task.requiredExecutor) == Some(x)
    ensures CapabilityCompatible(task, node) <==> Does(task, x)
  {
    hide Capability;
  }

  /** The slots asked for as the comparison sees them: from 2^31 on they are negative. */
  function Signed(n: U32): int {
    if n < TWO_31 then n else n - TWO_32
  }

  lemma CapacitySays(task: ComputeTask, node: NodeRecord, x: ExecutorCapability, r: Reason)
    requires Capability(node, task.requiredExecutor) == Some(x)
    ensures r in CapacityReasons(task, node) <==>
            || (r == CapabilityMismatch && !Does(task, x))
            || (r == InsufficientSlots && x.slots < Signed(Asked(task)))
            || (r == InsufficientScratch && task.scratchMemoryBytes > node.capacity.hostMemoryBytes)
  {
    hide Capability, Does, CapabilityCompatible;
    DoesIs(task, node, x);
  }

  lemma AmongReasons(task: ComputeTask, node: NodeRecord, r: Reason)
    ensures r in Reasons(task, node) <==>
            || r in HealthReasons(node) || r in CapacityReasons(task, node)
            || r in Repeated(task.forbiddenNodes, node.id) || r in Lacking(task.requiredTags, node)
  {
    hide HealthReasons, CapacityReasons, Repeated, Lacking;
  }

  /** When each reason is given against a node. */
  ghost predicate Against(task: ComputeTask, node: NodeRecord, x: ExecutorCapability, r: Reason) {
    match r
    case IsOffline => node.health == Offline
    case IsDraining => node.health == Draining
    case IsSuspect => node.health == Suspect
    case NotConnected => !node.connected && node.health != Online
    case CapabilityMismatch => !Does(task, x)
    case InsufficientSlots => x.slots < Signed(Asked(task))
    case InsufficientScratch => task.scratchMemoryBytes > node.capacity.hostMemoryBytes
    case Forbidden => node.id in task.forbiddenNodes
    case MissingTag(tag) => tag in task.requiredTags && tag !in node.capacity.tags
  }

  lemma AgainstIs(task: ComputeTask, node: NodeRecord, x: ExecutorCapability, r: Reason)
    requires Capability(node, task.requiredExecutor) == Some(x)
    ensures r in Reasons(task, node) <==> Against(task, node, x, r)
  {
    hide Capability, Does, Signed, Asked, HealthReasons, CapacityReasons, Repeated, Lacking, Reasons;
    AmongReasons(task, node, r);
    HealthSays(node, r);
    CapacitySays(task, node, x, r);
    RepeatedAre(task.forbiddenNodes, node.id, r);
    LackingAre(task.requiredTags, node);
  }

  /** A reason is given against a node exactly when it applies; the executor is the one the task
      would get there. */
  lemma ReasonsSay(task: ComputeTask, node: NodeRecord, i: nat, r: Reason)
    requires FirstOf(node, if task.requiredExecutor == ANY_EXECUTOR then CPU else task.requiredExecutor, i)
    ensures r in Reasons(task, node) <==> Against(task, node, node.capacity.executors[i], r)
  {
    hide Capability, Reasons, Against;
    CapabilityIs(node, task.requiredExecutor, i);
    AgainstIs(task, node, node.capacity.executors[i], r);
  }

  lemma {:induction false} RepeatedAre(ids: seq<Id>, id: Id, r: Reason)
    ensures r in Repeated(ids, id) <==> r == Forbidden && id in ids
  {
    if ids != [] {
      RepeatedAre(ids[..|ids| - 1], id, r);
      LastApart(ids);
    }
  }

  lemma {:induction false} LackingAre(tags: seq<Bytes>, node: NodeRecord)
    ensures forall r :: r in Lacking(tags, node) <==> r.MissingTag? && r.tag in tags && r.tag !in node.capacity.tags
  {
    if tags != [] {
      LackingAre(tags[..|tags| - 1], node);
      LastApart(tags);
    }
  }

  /** What is reported of a candidate: its node, the executor and the device it would get, and the
      cost terms; the baseline policy scores by fetching time and the task's own estimate, and
      reports neither pressure nor affinity. */
  lemma ReportSays(v: View, node: NodeRecord, i: nat)
    requires FirstOf(node, if v.task.requiredExecutor == ANY_EXECUTOR then CPU else v.task.requiredExecutor, i)
    ensures var r, x, estimate := ScoredOf(v, node), node.capacity.executors[i], v.model.context.value(v.task.estimatedDuration);
            && r.nodeId == node.id && r.executor == x.kind && r.device == x.name && r.costs.total == Score(v, node)
            && r.costs.capability == 0.0
            && (v.policy.Baseline? ==>
                  && r.costs.pressure == 0.0 && r.costs.affinity == 0.0
                  && r.costs.total == TransferSeconds(v.at, v.task.stateDependencies, node.id, v.model.context) + estimate
                  && r.costs.execution == estimate * v.model.weights.execution)
            && (v.policy.CostAware? ==>
                  r.costs.total == r.costs.execution + r.costs.queue + r.costs.transfer + r.costs.recompute
                                   + r.costs.pressure + r.costs.affinity)
            && r.costs.localityScore == LocalityScore(v.at, v.task.stateDependencies, node.id)
            && r.costs.pressureScore == Pressure(node, v.task.requiredExecutor, v.book)
  {
    hide Capability, FirstOf, Affinity, QueueSeconds, TransferSeconds, RecomputeSeconds, Pressure, LocalityScore, Penalty;
    CapabilityIs(node, v.task.requiredExecutor, i);
  }
}
