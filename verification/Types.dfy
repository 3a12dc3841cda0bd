/**
 The records the coordinator, the wire codec and the store share. Enumerations
 are the bytes that carry them: every decoder casts the byte it read without a
 range check, so values with no name are representable. Floating-point fields
 are carried as their 64-bit patterns.
 */
module Types {
  import opened Basics

  type Float64 = U64  // the bit pattern of a double
  type Int64 = n: int | -0x8000_0000_0000_0000 <= n < 0x8000_0000_0000_0000

  /** `static_cast<int64_t>` of an unsigned 64-bit number. */
  function AsInt64(n: U64): (r: Int64)
    ensures (n - r) % TWO_64 == 0
  {
    if n < 0x8000_0000_0000_0000 then n else n - TWO_64
  }

  /** `static_cast<uint64_t>` of a signed 64-bit number. */
  function AsU64(n: Int64): (r: U64)
    ensures (r - n) % TWO_64 == 0
  {
    if n >= 0 then n else n + TWO_64
  }

  // ----- TaskState -----
  type TaskState = Byte
  const SUBMITTED: TaskState := 0
  const BLOCKED: TaskState := 1
  const READY: TaskState := 2
  const PLANNING: TaskState := 3
  const RESERVED: TaskState := 4
  const DISPATCHING: TaskState := 5
  const RUNNING: TaskState := 6
  const SUCCEEDED: TaskState := 7
  const FAILED: TaskState := 8
  const RETRY_PENDING: TaskState := 9
  const CANCELLED: TaskState := 10
  const LOST: TaskState := 11
  const PREEMPTED: TaskState := 12
  const EXPIRED: TaskState := 13

  // ----- AttemptState -----
  type AttemptState = Byte
  const ATTEMPT_DISPATCHED: AttemptState := 0
  const ATTEMPT_STARTED: AttemptState := 1
  const ATTEMPT_SUCCEEDED: AttemptState := 2
  const ATTEMPT_FAILED: AttemptState := 3
  const ATTEMPT_CANCELLED: AttemptState := 4

  // ----- FailureKind -----
  type FailureKind = Byte
  const NO_FAILURE: FailureKind := 0
  const EXECUTOR_FAILED: FailureKind := 1
  const NODE_LOST: FailureKind := 2
  const FAILURE_CANCELLED: FailureKind := 4

  // ----- ExecutorType -----
  type ExecutorType = Byte
  const CPU: ExecutorType := 0
  const CUDA: ExecutorType := 1
  const ANY_EXECUTOR: ExecutorType := 2

  // ----- NodeHealth -----
  datatype NodeHealth = Online | Suspect | Draining | Offline

  type Int32 = n: int | -0x8000_0000 <= n < 0x8000_0000

  datatype ExecutorCapability = ExecutorCapability(
    kind: ExecutorType,
    name: Bytes,
    slots: Int32,
    major: Int32,
    minor: Int32,
    healthy: bool)

  datatype NodeCapacity = NodeCapacity(
    cpuWorkerSlots: Int32,
    hostMemoryBytes: U64,
    executors: seq<ExecutorCapability>,
    tags: map<Bytes, Bytes>)

  datatype NodeRecord = NodeRecord(
    id: Id,
    session: Id,
    epoch: U64,
    sessionEpoch: U64,
    health: NodeHealth,
    capacity: NodeCapacity,
    lastHeartbeatMs: int,
    connected: bool)

  datatype RetryPolicy = RetryPolicy(
    maxAttempts: U32,
    retryOnNodeLoss: bool,
    retryOnExecutorFailure: bool,
    retryOnTimeout: bool,
    retryBackoffMs: U64)

  datatype StateDependency = StateDependency(
    stateId: Bytes,
    generation: Bytes,
    sizeBytes: U64,
    residentNodes: seq<Id>,
    localityQuality: Float64,
    transferEstimate: Float64,
    recomputeEstimate: Float64,
    providerBacked: bool,
    compatibility: Bytes)

  datatype ComputeTask = ComputeTask(
    id: Id,
    workload: Id,
    name: Bytes,
    taskClass: Byte,
    requiredExecutor: ExecutorType,
    minCapabilityMajor: Byte,
    minCapabilityMinor: Byte,
    requiredCpuSlots: U32,
    requiredGpuSlots: U32,
    scratchMemoryBytes: U64,
    dependencies: seq<Id>,
    stateDependencies: seq<StateDependency>,
    expectedInputBytes: U64,
    expectedOutputBytes: U64,
    estimatedDuration: Float64,
    hasDeadline: bool,
    deadlineMs: Int64,
    priority: Byte,
    retry: RetryPolicy,
    preferredNodes: seq<Id>,
    forbiddenNodes: seq<Id>,
    requiredTags: seq<Bytes>,
    preferredTags: seq<Bytes>,
    antiAffinityGroup: Bytes,
    sameNodeAsTask: Option<Id>,
    differentNodeFromTask: Option<Id>,
    expectedTransferGb: Float64,
    expectedRecomputeCost: Float64,
    costEstimate: Float64,
    preemptible: bool,
    kernel: Byte,
    kernelN: U64,
    kernelA: U64,
    kernelB: U64,
    seed: U64,
    userTags: map<Bytes, Bytes>,
    payload: Bytes)

  /** A task with the given id, dependencies and CPU slots that asks for nothing else. */
  function Plain(id: Id, dependencies: seq<Id>, cpuSlots: U32): ComputeTask {
    ComputeTask(id, 0, [], 0, CPU, 0, 0, cpuSlots, 0, 0, dependencies, [], 0, 0, 0, false, 0, 0,
                RetryPolicy(1, false, false, false, 0), [], [], [], [], [], None, None, 0, 0, 0, false, 0, 0, 0, 0, 0,
                map[], [])
  }

  datatype Workload = Workload(id: Id, name: Bytes, userTags: map<Bytes, Bytes>)

  datatype Attempt = Attempt(
    id: Id,
    taskId: Id,
    nodeId: Id,
    nodeSession: Id,
    epoch: U64,
    reservationId: Id,
    executor: ExecutorType,
    attemptNumber: U32,
    dispatchedAtMs: Int64,
    startedAtMs: Int64,
    completedAtMs: Int64,
    state: AttemptState,
    failureKind: FailureKind,
    failureReason: Bytes,
    outputSize: U64,
    outputIntegrity: Bytes,
    cpuMillis: Float64,
    bytesTransferred: U64,
    device: Bytes,
    committed: bool)

  datatype CandidateScore = CandidateScore(
    nodeId: Id,
    executor: ExecutorType,
    device: Bytes,
    score: Float64,
    executionCost: Float64,
    queueCost: Float64,
    transferCost: Float64,
    recomputeCost: Float64,
    pressureCost: Float64,
    affinityCost: Float64,
    capabilityCost: Float64,
    localityScore: Float64,
    pressureScore: Float64)

  datatype Exclusion = Exclusion(nodeId: Id, reasons: seq<Bytes>)

  datatype PlacementDecision = PlacementDecision(
    feasible: bool,
    chosenNode: Option<Id>,
    chosenExecutor: Option<ExecutorType>,
    chosenDevice: Bytes,
    candidates: seq<CandidateScore>,
    excluded: seq<Exclusion>,
    totalCost: Float64,
    executionCost: Float64,
    queueCost: Float64,
    transferCost: Float64,
    recomputeCost: Float64,
    pressureCost: Float64,
    affinityCost: Float64,
    capabilityCost: Float64,
    localityScore: Float64,
    pressureScore: Float64,
    reason: Bytes)

  datatype StoredPlacement = StoredPlacement(taskId: Id, sequence: U64, decision: PlacementDecision)

  /** What the coordinator writes to disk. */
  datatype DurableState = DurableState(
    epoch: U64,
    workloads: map<Id, Workload>,
    tasks: map<Id, ComputeTask>,
    taskStates: map<Id, TaskState>,
    attempts: map<Id, seq<Attempt>>,
    retryCounts: map<Id, U32>,
    placements: seq<StoredPlacement>)

  const EMPTY_DISK: DurableState := DurableState(1, map[], map[], map[], map[], map[], [])
}
