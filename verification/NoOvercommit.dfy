/**
 Every sequence of reservations and releases stays within each node's capacity
 as long as no sum wraps, and a wrapped sum is exactly what breaks it.
 */
module NoOvercommit {
  import opened Basics
  import opened Types
  import opened Reservations

  // ----- sums over two books -----

  /** Books with the same keys whose weights add up pointwise have usages that add up. */
  lemma {:induction false} UsagesAdd(m: Book, a: Meter, m1: Book, b: Meter, m2: Book, c: Meter)
    requires m.Keys == m1.Keys == m2.Keys
    requires forall k :: k in m ==> Weight(a, m[k]) == Weight(b, m1[k]) + Weight(c, m2[k])
    ensures Usage(m, a) == Usage(m1, b) + Usage(m2, c)
    decreases m.Keys
  {
    if m != map[] {
      var k := Least(m.Keys);
      UsagesAdd(m - {k}, a, m1 - {k}, b, m2 - {k}, c);
    }
  }

  /** Releasing reservations never raises a usage. */
  lemma {:induction false} UsageShrinks(m: Book, m1: Book, a: Meter)
    requires m.Keys == m1.Keys
    requires forall k :: k in m ==> Weight(a, m1[k]) <= Weight(a, m[k])
    ensures Usage(m1, a) <= Usage(m, a)
    decreases m.Keys
  {
    if m != map[] {
      var k := Least(m.Keys);
      UsageShrinks(m - {k}, m1 - {k}, a);
    }
  }

  // ----- capacity -----

  function Limit(executors: seq<ExecutorCapability>, e: ExecutorType): nat {
    match FindExecutor(executors, e)
    case None => 0
    case Some(cap) => AsU32(cap.slots)
  }

  ghost predicate WithinNode(m: Book, n: Id, cap: NodeCapacity) {
    && (forall e: ExecutorType :: Usage(m, ExecutorSlots(n, e)) <= Limit(cap.executors, e))
    && Usage(m, ExecutorSlots(n, CPU)) <= AsU32(cap.cpuWorkerSlots)
    && Usage(m, Scratch(n)) <= cap.hostMemoryBytes
  }

  ghost predicate Within(m: Book, caps: map<Id, NodeCapacity>) {
    forall n :: n in caps ==> WithinNode(m, n, caps[n])
  }

  // ----- operations -----

  datatype Op =
    | Reserve(node: NodeRecord, epoch: U64, taskId: Id, executor: ExecutorType, slots: U32, scratch: U64,
              freshId: Id, now: int)
    | ReleaseOne(id: Id)
    | ReleaseMany(scope: Scope)

  ghost function Apply(m: Book, op: Op): Book {
    match op
    case Reserve(node, epoch, taskId, executor, slots, scratch, freshId, now) =>
      if Refusals(m, node, executor, slots, scratch) == None
      then m[freshId := Fresh(freshId, node, epoch, taskId, executor, slots, scratch, now)] else m
    case ReleaseOne(id) => Release(m, id)
    case ReleaseMany(scope) => ReleaseScope(m, scope)
  }

  /** A reservation request about a node whose capacity is the recorded one, under an
      id not used before. */
  ghost predicate Proper(m: Book, op: Op, caps: map<Id, NodeCapacity>) {
    op.Reserve? ==> op.freshId !in m && op.node.id in caps && op.node.capacity == caps[op.node.id]
  }

  /** No sum of this request reaches the width of its counter. */
  ghost predicate NoWrap(m: Book, op: Op) {
    op.Reserve? ==>
      && Usage(m, NodeSlots(op.node.id)) + op.slots < TWO_32
      && Usage(m, Scratch(op.node.id)) + op.scratch < TWO_64
  }

  lemma GrantedUsage(m: Book, op: Op, meter: Meter)
    requires op.Reserve? && op.freshId !in m
    requires Refusals(m, op.node, op.executor, op.slots, op.scratch) == None
    ensures Usage(Apply(m, op), meter) == Usage(m, meter) +
      match meter
      case ExecutorSlots(n, e) => if n == op.node.id && e == op.executor then op.slots else 0
      case NodeSlots(n) => if n == op.node.id then op.slots else 0
      case Scratch(n) => if n == op.node.id then op.scratch else 0
  {
    UsageUpdate(m, meter, op.freshId,
                Fresh(op.freshId, op.node, op.epoch, op.taskId, op.executor, op.slots, op.scratch, op.now));
  }

  /** Whether a check fails, whatever comes before it. */
  ghost predicate FailsCheck(m: Book, node: NodeRecord, executor: ExecutorType, slots: U32, scratch: U64, r: Refusal) {
    var cap := FindExecutor(node.capacity.executors, executor);
    match r
    case NodeOffline => node.health == Offline
    case NodeDraining => node.health == Draining
    case NoSuchExecutor => forall x :: x in node.capacity.executors ==> x.kind != executor
    case ExecutorUnhealthy => cap.Some? && !cap.value.healthy
    case ZeroSlots => slots == 0
    case ExecutorFull =>
      cap.Some? && (Usage(m, ExecutorSlots(node.id, executor)) + slots) % TWO_32 > AsU32(cap.value.slots)
    case WorkersFull =>
      executor == CPU && (Usage(m, NodeSlots(node.id)) + slots) % TWO_32 > AsU32(node.capacity.cpuWorkerSlots)
    case ScratchExceeded =>
      scratch != 0 && (Usage(m, Scratch(node.id)) + scratch) % TWO_64 > node.capacity.hostMemoryBytes
  }

  /** The place of a check among the eight. */
  function Rank(r: Refusal): nat {
    match r
    case NodeOffline => 0
    case NodeDraining => 1
    case NoSuchExecutor => 2
    case ExecutorUnhealthy => 3
    case ZeroSlots => 4
    case ExecutorFull => 5
    case WorkersFull => 6
    case ScratchExceeded => 7
  }

  lemma {:induction false} NoneFound(executors: seq<ExecutorCapability>, kind: ExecutorType)
    ensures FindExecutor(executors, kind).None? <==> forall x :: x in executors ==> x.kind != kind
    decreases |executors|
  {
    if executors != [] {
      NoneFound(executors[1..], kind);
      assert executors == [executors[0]] + executors[1..];
    }
  }

  /** A request is refused exactly for the first check that fails, and granted when none does. */
  lemma FirstFailing(m: Book, node: NodeRecord, executor: ExecutorType, slots: U32, scratch: U64, r: Refusal)
    ensures Refusals(m, node, executor, slots, scratch) == Some(r) <==>
            && FailsCheck(m, node, executor, slots, scratch, r)
            && forall q :: Rank(q) < Rank(r) ==> !FailsCheck(m, node, executor, slots, scratch, q)
    ensures Refusals(m, node, executor, slots, scratch) == None ==> !FailsCheck(m, node, executor, slots, scratch, r)
  {
    NoneFound(node.capacity.executors, executor);
    hide Usage, FindExecutor;
    var found := Refusals(m, node, executor, slots, scratch);
    if found.Some? {
      assert FailsCheck(m, node, executor, slots, scratch, found.value);
    }
  }

  /** A bulk release: of a node everything on it; of the other epochs everything of another; of a
      session what that session of that node holds. Nothing else changes, and nothing comes back. */
  lemma BulkReleases(m: Book, n: Id, e: U64, session: Id, k: Id)
    requires k in m
    ensures var byNode, byEpoch, bySession := ReleaseScope(m, OfNode(n)), ReleaseScope(m, OutsideEpoch(e)),
                                              ReleaseScope(m, OfSession(n, session));
            && byNode.Keys == byEpoch.Keys == bySession.Keys == m.Keys
            && byNode[k] == m[k].(released := m[k].released || m[k].nodeId == n)
            && byEpoch[k] == m[k].(released := m[k].released || m[k].epoch != e)
            && bySession[k] == m[k].(released := m[k].released || (m[k].nodeId == n && m[k].sessionId == session))
  {
  }

  /** A granted request respects each bound it was checked against if and only if the
      corresponding sum did not wrap. */
  lemma GrantIsExact(m: Book, node: NodeRecord, executor: ExecutorType, slots: U32, scratch: U64)
    requires Refusals(m, node, executor, slots, scratch) == None
    ensures Usage(m, ExecutorSlots(node.id, executor)) + slots <= Limit(node.capacity.executors, executor)
            <==> Usage(m, ExecutorSlots(node.id, executor)) + slots < TWO_32
    ensures executor == CPU ==>
            (Usage(m, NodeSlots(node.id)) + slots <= AsU32(node.capacity.cpuWorkerSlots)
             <==> Usage(m, NodeSlots(node.id)) + slots < TWO_32)
    ensures scratch > 0 ==>
            (Usage(m, Scratch(node.id)) + scratch <= node.capacity.hostMemoryBytes
             <==> Usage(m, Scratch(node.id)) + scratch < TWO_64)
  {
  }

  lemma ReserveWithin(m: Book, op: Op, cap: NodeCapacity, n: Id)
    requires op.Reserve? && op.freshId !in m && WithinNode(m, n, cap)
    requires n == op.node.id ==> op.node.capacity == cap
    requires NoWrap(m, op)
    requires Refusals(m, op.node, op.executor, op.slots, op.scratch) == None
    ensures WithinNode(Apply(m, op), n, cap)
  {
    GrantIsExact(m, op.node, op.executor, op.slots, op.scratch);
    ExecutorWithinNode(m, op.node.id, op.executor);
    forall e: ExecutorType ensures Usage(Apply(m, op), ExecutorSlots(n, e)) <= Limit(cap.executors, e) {
      GrantedUsage(m, op, ExecutorSlots(n, e));
    }
    GrantedUsage(m, op, ExecutorSlots(n, CPU));
    GrantedUsage(m, op, Scratch(n));
  }

  lemma ApplyWithin(m: Book, op: Op, caps: map<Id, NodeCapacity>)
    requires Within(m, caps) && Proper(m, op, caps) && NoWrap(m, op)
    ensures Within(Apply(m, op), caps)
  {
    forall n | n in caps ensures WithinNode(Apply(m, op), n, caps[n]) {
      assert WithinNode(m, n, caps[n]);
      if op.Reserve? {
        if Refusals(m, op.node, op.executor, op.slots, op.scratch) == None {
          ReserveWithin(m, op, caps[n], n);
        }
      } else {
        forall e: ExecutorType
          ensures Usage(Apply(m, op), ExecutorSlots(n, e)) <= Usage(m, ExecutorSlots(n, e))
        {
          UsageShrinks(m, Apply(m, op), ExecutorSlots(n, e));
        }
        UsageShrinks(m, Apply(m, op), Scratch(n));
      }
    }
  }

  // ----- whole runs -----

  ghost function Run(m: Book, ops: seq<Op>): Book
    decreases |ops|
  {
    if ops == [] then m else Run(Apply(m, ops[0]), ops[1..])
  }

  ghost function TotalSlots(executors: seq<ExecutorCapability>): nat {
    if executors == [] then 0 else AsU32(executors[0].slots) + TotalSlots(executors[1..])
  }

  /** A bound on a request that mentions only the node's capacity. */
  ghost predicate Bounded(op: Op) {
    op.Reserve? ==>
      && TotalSlots(op.node.capacity.executors) + op.slots < TWO_32
      && op.node.capacity.hostMemoryBytes + op.scratch < TWO_64
  }

  /** Every request of the run names recorded capacity, a new id and bounded amounts. */
  ghost predicate GoodRun(m: Book, ops: seq<Op>, caps: map<Id, NodeCapacity>)
    decreases |ops|
  {
    ops == [] || (Proper(m, ops[0], caps) && Bounded(ops[0]) && GoodRun(Apply(m, ops[0]), ops[1..], caps))
  }

  /** Reservations of one executor kind on one node, taken out. */
  ghost function Without(m: Book, n: Id, e: ExecutorType): Book {
    map k | k in m :: if m[k].nodeId == n && m[k].executor == e then m[k].(released := true) else m[k]
  }

  lemma {:induction false} NoExecutorNoUsage(m: Book, n: Id)
    requires forall e: ExecutorType :: Usage(m, ExecutorSlots(n, e)) == 0
    ensures Usage(m, NodeSlots(n)) == 0
    decreases m.Keys
  {
    if m != map[] {
      var k := Least(m.Keys);
      forall e: ExecutorType ensures Usage(m - {k}, ExecutorSlots(n, e)) == 0 {
        assert Usage(m, ExecutorSlots(n, e)) == 0;
      }
      NoExecutorNoUsage(m - {k}, n);
      assert Usage(m, ExecutorSlots(n, m[k].executor)) == 0;
    }
  }

  /** The slots held on a node never exceed what all its executors offer together. */
  lemma {:induction false} NodeWithinTotal(m: Book, n: Id, executors: seq<ExecutorCapability>)
    requires forall e: ExecutorType :: Usage(m, ExecutorSlots(n, e)) <= Limit(executors, e)
    ensures Usage(m, NodeSlots(n)) <= TotalSlots(executors)
    decreases |executors|
  {
    if executors == [] {
      NoExecutorNoUsage(m, n);
    } else {
      var e0 := executors[0].kind;
      var m1 := Without(m, n, e0);
      forall e: ExecutorType ensures Usage(m1, ExecutorSlots(n, e)) <= Limit(executors[1..], e) {
        if e == e0 {
          AllReleased(m1, ExecutorSlots(n, e));
        } else {
          UsageShrinks(m, m1, ExecutorSlots(n, e));
          assert Usage(m, ExecutorSlots(n, e)) <= Limit(executors, e);
        }
      }
      NodeWithinTotal(m1, n, executors[1..]);
      UsagesAdd(m, NodeSlots(n), m1, NodeSlots(n), m, ExecutorSlots(n, e0));
      assert Usage(m, ExecutorSlots(n, e0)) <= Limit(executors, e0);
    }
  }

  lemma {:induction false} AllReleased(m: Book, meter: Meter)
    requires forall k :: k in m ==> Weight(meter, m[k]) == 0
    ensures Usage(m, meter) == 0
    decreases m.Keys
  {
    if m != map[] {
      AllReleased(m - {Least(m.Keys)}, meter);
    }
  }

  /** No overcommit: every good run of reservations, releases and invalidations keeps
      per-executor slots, CPU slots against worker slots, and scratch within capacity. */
  lemma {:induction false} NeverOvercommitted(m: Book, ops: seq<Op>, caps: map<Id, NodeCapacity>)
    requires Within(m, caps) && GoodRun(m, ops, caps)
    ensures Within(Run(m, ops), caps)
    decreases |ops|
  {
    if ops != [] {
      var op := ops[0];
      if op.Reserve? {
        assert WithinNode(m, op.node.id, caps[op.node.id]);
        NodeWithinTotal(m, op.node.id, op.node.capacity.executors);
      }
      ApplyWithin(m, op, caps);
      NeverOvercommitted(Apply(m, op), ops[1..], caps);
    }
  }

  /** A release gives back exactly what the reservation held, on every meter, and only
      the first time. */
  lemma ReleaseReturnsOnce(m: Book, id: Id, meter: Meter)
    ensures Usage(Release(m, id), meter) == Usage(m, meter) - if id in m then Weight(meter, m[id]) else 0
    ensures Release(Release(m, id), id) == Release(m, id)
  {
    if id in m {
      UsageUpdate(m, meter, id, m[id].(released := true));
    }
  }

  /** Without the bound the check wraps: with one slot of one in use, a request for
      2^32 - 1 more is granted. */
  lemma WrappedRequestIsGranted(node: NodeRecord, held: Reservation)
    requires node.health == Online && held.nodeId == node.id && held.executor == CUDA
    requires held.slots == 1 && !held.released
    requires node.capacity.executors == [ExecutorCapability(CUDA, [], 1, 0, 0, true)]
    ensures Usage(map[held.id := held], ExecutorSlots(node.id, CUDA)) == 1
    ensures Refusals(map[held.id := held], node, CUDA, TWO_32 - 1, 0) == None
  {
    var m: Book := map[];
    UsageUpdate(m, ExecutorSlots(node.id, CUDA), held.id, held);
    assert m[held.id := held] == map[held.id := held];
  }
}
