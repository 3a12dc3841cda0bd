/**
 The reservation allocator: slots per executor, CPU worker slots and scratch
 memory per node, with the wrapping sums of the source.
 */
module Reservations {
  import opened Basics
  import opened Types

  datatype Reservation = Reservation(
    id: Id,
    taskId: Id,
    nodeId: Id,
    sessionId: Id,
    epoch: U64,
    sessionEpoch: U64,
    executor: ExecutorType,
    slots: U32,
    scratchBytes: U64,
    createdAtMs: int,
    released: bool)

  type Book = map<Id, Reservation>

  datatype Refusal =
    | NodeOffline
    | NodeDraining
    | NoSuchExecutor
    | ExecutorUnhealthy
    | ZeroSlots
    | ExecutorFull
    | WorkersFull
    | ScratchExceeded

  datatype Grant = Granted(reservation: Reservation) | Refused(reason: Refusal)

  // ----- usage -----

  /** What a sum over the live reservations measures. */
  datatype Meter = ExecutorSlots(node: Id, executor: ExecutorType) | NodeSlots(node: Id) | Scratch(node: Id)

  function Weight(meter: Meter, r: Reservation): nat {
    if r.released then 0 else
    match meter
    case ExecutorSlots(n, e) => if r.nodeId == n && r.executor == e then r.slots else 0
    case NodeSlots(n) => if r.nodeId == n then r.slots else 0
    case Scratch(n) => if r.nodeId == n then r.scratchBytes else 0
  }

  /** The unbounded sum over the book, walked in id order. */
  ghost function Usage(m: Book, meter: Meter): nat
    decreases m.Keys
  {
    if m == map[] then 0 else
    var k := Least(m.Keys);
    Weight(meter, m[k]) + Usage(m - {k}, meter)
  }

  /** Any one reservation can be taken out of the sum. */
  lemma {:induction false} UsageWithout(m: Book, meter: Meter, k: Id)
    requires k in m
    ensures Usage(m, meter) == Weight(meter, m[k]) + Usage(m - {k}, meter)
    decreases m.Keys
  {
    var l := Least(m.Keys);
    if l != k {
      UsageWithout(m - {l}, meter, k);
      UsageWithout(m - {k}, meter, l);
      assert m - {l} - {k} == m - {k} - {l};
    }
  }

  lemma UsageUpdate(m: Book, meter: Meter, k: Id, r: Reservation)
    ensures Usage(m[k := r], meter)
            == Usage(m, meter) + Weight(meter, r) - if k in m then Weight(meter, m[k]) else 0
  {
    UsageWithout(m[k := r], meter, k);
    assert m[k := r] - {k} == m - {k};
    if k in m {
      UsageWithout(m, meter, k);
    } else {
      assert m - {k} == m;
    }
  }

  lemma {:induction false} ExecutorWithinNode(m: Book, n: Id, e: ExecutorType)
    ensures Usage(m, ExecutorSlots(n, e)) <= Usage(m, NodeSlots(n))
    decreases m.Keys
  {
    if m != map[] {
      ExecutorWithinNode(m - {Least(m.Keys)}, n, e);
    }
  }

  /** Slots are summed in 32 bits, scratch bytes in 64. */
  function Wrap(meter: Meter, n: nat): nat {
    if meter.Scratch? then n % TWO_64 else n % TWO_32
  }

  /** The accumulator loops of the source, whose sums wrap. */
  method Accumulate(m: Book, meter: Meter) returns (used: nat)
    ensures used == Wrap(meter, Usage(m, meter))
  {
    used := 0;
    var rest := m;
    ghost var sum: nat := 0;
    while rest != map[]
      invariant used == Wrap(meter, sum)
      invariant sum + Usage(rest, meter) == Usage(m, meter)
      decreases rest.Keys
    {
      var k := Least(rest.Keys);
      AddWraps(meter, sum, Weight(meter, rest[k]));
      used := Wrap(meter, used + Weight(meter, rest[k]));
      sum := sum + Weight(meter, rest[k]);
      rest := rest - {k};
    }
  }

  /** The wrapped sum of what is used and what is asked for. */
  method AccumulateWith(m: Book, meter: Meter, asked: nat) returns (total: nat)
    ensures total == Wrap(meter, Usage(m, meter) + asked)
  {
    var used := Accumulate(m, meter);
    AddWraps(meter, Usage(m, meter), asked);
    total := Wrap(meter, used + asked);
  }

  lemma AddWraps(meter: Meter, a: nat, b: nat)
    ensures Wrap(meter, Wrap(meter, a) + b) == Wrap(meter, a + b)
  {
  }

  // ----- the decision -----

  function FindExecutor(executors: seq<ExecutorCapability>, kind: ExecutorType): (r: Option<ExecutorCapability>)
    ensures r.Some? ==> r.value in executors && r.value.kind == kind
  {
    if executors == [] then None
    else if executors[0].kind == kind then Some(executors[0])
    else FindExecutor(executors[1..], kind)
  }

  /** `static_cast<uint32_t>` of a 32-bit signed number. */
  function AsU32(n: Int32): (r: U32)
    ensures (r - n) % TWO_32 == 0
  {
    if n < 0 then n + TWO_32 else n
  }

  /** Why a request is refused, if it is; every sum wraps as it does in the source. */
  ghost function Refusals(m: Book, node: NodeRecord, executor: ExecutorType, slots: U32, scratch: U64)
    : (r: Option<Refusal>)
  {
    var cap := FindExecutor(node.capacity.executors, executor);
    if node.health == Offline then Some(NodeOffline)
    else if node.health == Draining then Some(NodeDraining)
    else if cap == None then Some(NoSuchExecutor)
    else if !cap.value.healthy then Some(ExecutorUnhealthy)
    else if slots == 0 then Some(ZeroSlots)
    else if Wrap(ExecutorSlots(node.id, executor), Usage(m, ExecutorSlots(node.id, executor)) + slots) > AsU32(cap.value.slots)
      then Some(ExecutorFull)
    else if executor == CPU
      && Wrap(NodeSlots(node.id), Usage(m, NodeSlots(node.id)) + slots) > AsU32(node.capacity.cpuWorkerSlots)
      then Some(WorkersFull)
    else if Wrap(Scratch(node.id), Usage(m, Scratch(node.id)) + scratch) > node.capacity.hostMemoryBytes && scratch > 0
      then Some(ScratchExceeded)
    else None
  }

  function Fresh(id: Id, node: NodeRecord, epoch: U64, taskId: Id, executor: ExecutorType, slots: U32,
                 scratch: U64, now: int): Reservation
  {
    Reservation(id, taskId, node.id, node.session, epoch, node.sessionEpoch, executor, slots, scratch, now, false)
  }

  function Release(m: Book, id: Id): Book {
    if id in m && !m[id].released then m[id := m[id].(released := true)] else m
  }

  datatype Scope = OfNode(node: Id) | OutsideEpoch(epoch: U64) | OfSession(node: Id, session: Id)

  predicate InScope(scope: Scope, r: Reservation) {
    match scope
    case OfNode(n) => r.nodeId == n
    case OutsideEpoch(e) => r.epoch != e
    case OfSession(n, s) => r.nodeId == n && r.sessionId == s
  }

  function ReleaseScope(m: Book, scope: Scope): Book {
    map k | k in m :: if InScope(scope, m[k]) then m[k].(released := true) else m[k]
  }

  ghost function LiveIn(m: Book, scope: Scope): set<Id> {
    set k | k in m && InScope(scope, m[k]) && !m[k].released
  }

  /** `m` once the members of `done` have been visited by a bulk release. */
  ghost function ReleaseAmong(m: Book, scope: Scope, done: set<Id>): Book {
    map k | k in m :: if k in done && InScope(scope, m[k]) then m[k].(released := true) else m[k]
  }

  lemma ReleaseNext(m: Book, scope: Scope, done: set<Id>, k: Id)
    requires k in m && k !in done
    ensures ReleaseAmong(m, scope, done)[k] == m[k]
    ensures ReleaseAmong(m, scope, done + {k})
            == if InScope(scope, m[k]) && !m[k].released
               then ReleaseAmong(m, scope, done)[k := m[k].(released := true)] else ReleaseAmong(m, scope, done)
    ensures |LiveIn(m, scope) * (done + {k})|
            == |LiveIn(m, scope) * done| + if InScope(scope, m[k]) && !m[k].released then 1 else 0
  {
    var x := LiveIn(m, scope) * done;
    assert LiveIn(m, scope) * (done + {k}) == if k in LiveIn(m, scope) then x + {k} else x;
  }

  lemma ReleasedAll(m: Book, scope: Scope, done: set<Id>)
    requires m.Keys <= done
    ensures ReleaseAmong(m, scope, done) == ReleaseScope(m, scope)
    ensures LiveIn(m, scope) * done == LiveIn(m, scope)
  {
  }

  lemma ReleasedNone(m: Book, scope: Scope)
    ensures ReleaseAmong(m, scope, {}) == m
    ensures |LiveIn(m, scope) * {}| == 0
  {
  }

  // ----- the registry object -----

  class ReservationRegistry {
    var reservations: Book

    constructor ()
      ensures reservations == map[]
    {
      reservations := map[];
    }

    method TryReserve(node: NodeRecord, epoch: U64, taskId: Id, executor: ExecutorType, slots: U32,
                      scratch: U64, freshId: Id, now: int) returns (g: Grant)
      modifies this
      ensures g == match Refusals(old(reservations), node, executor, slots, scratch)
                   case Some(reason) => Refused(reason)
                   case None => Granted(Fresh(freshId, node, epoch, taskId, executor, slots, scratch, now))
      ensures reservations == if g.Granted? then old(reservations)[freshId := g.reservation] else old(reservations)
    {
      if node.health == Offline { return Refused(NodeOffline); }
      if node.health == Draining { return Refused(NodeDraining); }
      var cap := FindExecutor(node.capacity.executors, executor);
      if cap == None { return Refused(NoSuchExecutor); }
      if !cap.value.healthy { return Refused(ExecutorUnhealthy); }
      if slots == 0 { return Refused(ZeroSlots); }
      var used := AccumulateWith(reservations, ExecutorSlots(node.id, executor), slots);
      if used > AsU32(cap.value.slots) { return Refused(ExecutorFull); }
      if executor == CPU {
        var usedCpu := AccumulateWith(reservations, NodeSlots(node.id), slots);
        if usedCpu > AsU32(node.capacity.cpuWorkerSlots) { return Refused(WorkersFull); }
      }
      var usedScratch := AccumulateWith(reservations, Scratch(node.id), scratch);
      if usedScratch > node.capacity.hostMemoryBytes && scratch > 0 { return Refused(ScratchExceeded); }
      var r := Fresh(freshId, node, epoch, taskId, executor, slots, scratch, now);
      reservations := reservations[freshId := r];
      return Granted(r);
    }

    method ReleaseOne(id: Id) returns (r: Outcome)
      modifies this
      ensures reservations == Release(old(reservations), id)
      ensures r == if id in old(reservations) && !old(reservations)[id].released then Done
                   else Failed(ReservationNotFound)
    {
      if id !in reservations { return Failed(ReservationNotFound); }
      if reservations[id].released { return Failed(ReservationNotFound); }
      reservations := reservations[id := reservations[id].(released := true)];
      return Done;
    }

    /** The three bulk operations: release by node, by stale epoch, by stale session. */
    method ReleaseMany(scope: Scope) returns (n: nat)
      modifies this
      ensures reservations == ReleaseScope(old(reservations), scope)
      ensures n == |LiveIn(old(reservations), scope)|
    {
      n := 0;
      var todo := reservations.Keys;
      ghost var all := reservations;
      ghost var done: set<Id> := {};
      ReleasedNone(all, scope);
      while todo != {}
        invariant todo <= all.Keys && done !! todo && all.Keys <= done + todo
        invariant reservations == ReleaseAmong(all, scope, done)
        invariant n == |LiveIn(all, scope) * done|
      {
        var k :| k in todo;
        ReleaseNext(all, scope, done, k);
        var r := reservations[k];
        if InScope(scope, r) && !r.released {
          reservations := reservations[k := r.(released := true)];
          n := n + 1;
        }
        todo, done := todo - {k}, done + {k};
      }
      ReleasedAll(all, scope, done);
    }

    method UsedSlots(node: Id, executor: ExecutorType) returns (used: nat)
      ensures used == Usage(reservations, ExecutorSlots(node, executor)) % TWO_32
    {
      used := Accumulate(reservations, ExecutorSlots(node, executor));
    }
  }
}
