/**
 What becomes of results, failures and cancellations over whole runs.
 */
module CoordinatorOutcomes {
  import opened Basics
  import opened Types
  import opened Paths
  import opened TaskGraphs
  import opened Reservations
  import opened CoordinatorCore
  import opened CoordinatorInvariants
  import opened CoordinatorSteps
  import opened CoordinatorRecovery
  import opened CoordinatorHistory
  import opened CoordinatorRuns
  import opened CoordinatorTheorems
  import opened CoordinatorEffects
  import opened CoordinatorUpkeep
  import Lifecycle

  // ----- an attempt changes only by messages about it -----

  /** The attempt the message is about, if the event is a message about one. */
  function Subject(e: Event): Option<Id> {
    match e.step
    case DoStarted(a, _, _) => Some(a)
    case DoComplete(a, _, _) => Some(a)
    case DoFailed(a, _, _) => Some(a)
    case DoCancelled(a, _) => Some(a)
    case _ => None
  }

  lemma MessageChanges(c: Core, e: Event, q: Spot)
    requires MemoryInv(c) && Subject(e).Some? && Holds(c.attempts, q, Subject(e).value)
    ensures OnlyAt(c.attempts, Next(c, e).attempts, q)
  {
    hide MemoryInv, Next, Delivers, Closed, Begun, Fails, Freed, Written, Moved, Timed, Preempted, Another, CommitTask,
      Acceptable, Rest, Over, Resolved;
    match e.step {
      case DoStarted(a, _, _) => StartedMarks(c, e, q);
      case DoComplete(a, r, _) =>
        CompletionDelivers(c, e, q);
        if !Acceptable(c, c.attempts[q.task][q.index], r) { CompletionRefused(c, e, q); }
      case DoFailed(a, _, _) => FailureDecides(c, e, q);
      case DoCancelled(a, _) => NodeCancelCloses(c, e, q);
    }
  }

  /** Placing may add an attempt at the end of a task's list. */
  ghost predicate Extends(m: map<Id, seq<Attempt>>, m1: map<Id, seq<Attempt>>) {
    forall t :: AttemptsOf(m, t) <= AttemptsOf(m1, t)
  }

  lemma OthersExtend(c: Core, e: Event)
    requires MemoryInv(c) && Subject(e).None? && !e.step.DoRestart?
    ensures Extends(c.attempts, Next(c, e).attempts)
  {
    hide MemoryInv, Next, Freed, Written, Moved, GoesOffline, Begins, Reserves, Sendable, Welcome, AtWork;
    match e.step {
      case DoSubmit(_, _, _, _) => SubmitEnters(c, e);
      case DoCancel(_) => CancelAsks(c, e);
      case DoRelease(_) => ReleaseSays(c, e);
      case DoNodeNews(_, _) => NewsTouchesNodes(c, e);
      case DoLoseNode(_) => LossLeavesAttempts(c, e);
      case DoRequeue(_) => RequeueIff(c, e);
      case DoRetry(_) => RetryIff(c, e);
      case DoExpire(_) => ExpireIff(c, e);
      case DoSchedule(_, _) => PlacingExtends(c, e);
      case DoPersist => SaveTouchesDisk(c, e);
    }
  }

  lemma NewsTouchesNodes(c: Core, e: Event)
    requires e.step.DoNodeNews?
    ensures Next(c, e) == c.(nodes := Next(c, e).nodes)
  {
    hide NodesAfter;
  }

  lemma SaveTouchesDisk(c: Core, e: Event)
    requires e.step.DoPersist?
    ensures Next(c, e) == c.(durable := Next(c, e).durable, disk := Next(c, e).disk)
  {
    hide Snapshot;
  }

  lemma LossLeavesAttempts(c: Core, e: Event)
    requires MemoryInv(c) && e.step.DoLoseNode?
    ensures Next(c, e).attempts == c.attempts
  {
    hide MemoryInv, Next, Written, AtWork, LossHoldings;
    LossSays(c, e);
  }

  lemma PlacingExtends(c: Core, e: Event)
    requires MemoryInv(c) && e.step.DoSchedule?
    ensures Extends(c.attempts, Next(c, e).attempts)
  {
    hide MemoryInv, Next, Begins, Reserves, Refusals, Moved, Spares;
    PlacingFrame(c, e);
  }

  /** Outside a restart an attempt is changed only by a message about it. */
  lemma OnlyItsMessages(c: Core, e: Event, p: Spot)
    requires MemoryInv(c) && !e.step.DoRestart? && IsSpot(c.attempts, p)
    requires Subject(e) != Some(c.attempts[p.task][p.index].id)
    ensures IsSpot(Next(c, e).attempts, p) && Next(c, e).attempts[p.task][p.index] == c.attempts[p.task][p.index]
  {
    hide MemoryInv, Next;
    if Subject(e).Some? {
      if Known(c.attempts, Subject(e).value) {
        var q := Find(c.attempts, Subject(e).value);
        MessageChanges(c, e, q);
        assert q != p;
      } else {
        UnknownIsIgnored(c, e, Subject(e).value);
      }
    } else {
      OthersExtend(c, e);
      assert AttemptsOf(c.attempts, p.task) <= AttemptsOf(Next(c, e).attempts, p.task);
    }
  }

  // ----- results -----

  /** A committed attempt of `t` with id `a` that delivered this. */
  ghost predicate Delivered(m: map<Id, seq<Attempt>>, t: Id, a: Id, out: Output) {
    exists x :: Filed(m, t, x) && Result(x, a, out)
  }

  ghost predicate Result(x: Attempt, a: Id, out: Output) {
    && x.id == a && x.committed && x.outputSize == out.size && x.outputIntegrity == out.integrity
    && x.cpuMillis == out.millis && x.bytesTransferred == out.transferred
  }

  lemma FiledAt(m: map<Id, seq<Attempt>>, t: Id, x: Attempt) returns (p: Spot)
    requires Filed(m, t, x)
    ensures IsSpot(m, p) && p.task == t && m[t][p.index] == x
  {
    p := SpotOf(m, t, x);
  }

  lemma CarriesResult(m: map<Id, seq<Attempt>>, m1: map<Id, seq<Attempt>>, epoch: U64, t: Id, a: Id, out: Output)
    requires Carries(m, m1, epoch) && Delivered(m, t, a, out)
    ensures Delivered(m1, t, a, out)
  {
    hide CommitCount;
    var x :| Filed(m, t, x) && Result(x, a, out);
    var p := FiledAt(m, t, x);
    assert Filed(m1, t, m1[p.task][p.index]) && Result(m1[p.task][p.index], a, out);
  }

  lemma CommitKeepsResult(m: map<Id, seq<Attempt>>, m1: map<Id, seq<Attempt>>, u: Id, epoch: U64, t: Id, a: Id, out: Output)
    requires CommitAttempts(m, m1, u, epoch) && Delivered(m, t, a, out)
    ensures Delivered(m1, t, a, out)
  {
    hide CommitCount;
    var x :| Filed(m, t, x) && Result(x, a, out);
    var p := FiledAt(m, t, x);
    assert Filed(m1, t, m1[p.task][p.index]) && Result(m1[p.task][p.index], a, out);
  }

  lemma StepKeepsResult(c: Core, e: Event, t: Id, a: Id, out: Output)
    requires MemoryInv(c) && !e.step.DoRestart? && Delivered(c.attempts, t, a, out)
    ensures Delivered(Next(c, e).attempts, t, a, out)
  {
    hide Next, MemoryInv, CommitTask, Evolves, CommitStates, Carries, CommitAttempts, Delivered;
    NextHistory(c, e);
    if CommitTask(c, e).Some? {
      CommitKeepsResult(c.attempts, Next(c, e).attempts, CommitTask(c, e).value, Epoch(c), t, a, out);
    } else {
      CarriesResult(c.attempts, Next(c, e).attempts, Epoch(c), t, a, out);
    }
  }

  lemma SyncedDelivers(c: Core, t: Id, a: Id, out: Output)
    requires Synced(c) && Delivered(c.attempts, t, a, out)
    ensures Delivered(c.disk.attempts, t, a, out)
  {
    var x :| Filed(c.attempts, t, x) && Result(x, a, out);
    SyncedOnRecord(c, t, x);
  }

  /** The result is in memory and on disk. */
  ghost predicate Secured(c: Core, t: Id, a: Id, out: Output) {
    Delivered(c.attempts, t, a, out) && Delivered(c.disk.attempts, t, a, out)
  }

  lemma NextKeepsResult(c: Core, e: Event, t: Id, a: Id, out: Output)
    requires Inv(c) && Enabled(c, e) && Secured(c, t, a, out)
    ensures Secured(Next(c, e), t, a, out)
  {
    NextThrough(c, e);
    if e.step.DoRestart? {
      RestartResumes(c, e);
    } else {
      StepKeepsResult(c, e, t, a, out);
    }
    hide Next, Inv, Delivered, Enabled;
    if Synced(Next(c, e)) {
      SyncedDelivers(Next(c, e), t, a, out);
    }
  }

  lemma {:induction false} ResultIsForever(c: Core, run: seq<Event>, t: Id, a: Id, out: Output)
    requires Inv(c) && Possible(c, run) && Secured(c, t, a, out)
    ensures Secured(After(c, run), t, a, out)
    decreases |run|
  {
    hide Inv, Next, Secured, Enabled;
    if run != [] {
      NextInv(c, run[0]);
      NextKeepsResult(c, run[0], t, a, out);
      ResultIsForever(Next(c, run[0]), run[1..], t, a, out);
    }
  }

  lemma DeliversResult(m: map<Id, seq<Attempt>>, m1: map<Id, seq<Attempt>>, p: Spot, out: Output, now: Int64)
    requires IsSpot(m, p) && OnlyAt(m, m1, p) && Delivers(m[p.task][p.index], m1[p.task][p.index], out, now)
    ensures Filed(m1, p.task, m1[p.task][p.index]) && m1[p.task][p.index].committed
    ensures Result(m1[p.task][p.index], m[p.task][p.index].id, out)
    ensures p.task in m1 && p.index < |m1[p.task]|
  {
  }

  lemma CommitIsSecured(c: Core, e: Event, p: Spot)
    requires Inv(c) && e.step.DoComplete? && e.saved && Holds(c.attempts, p, e.step.a)
    requires Acceptable(c, c.attempts[p.task][p.index], e.step.reservation)
    ensures Secured(Next(c, e), p.task, e.step.a, e.step.out)
    ensures p.task in Next(c, e).attempts && p.index < |Next(c, e).attempts[p.task]|
    ensures OnRecord(Next(c, e), p.task, Next(c, e).attempts[p.task][p.index])
  {
    SoundMemory(c);
    hide Inv, MemoryInv, Next, CommitTask, Acceptable, Commission, Secured, OnRecord;
    CompletionDelivers(c, e, p);
    CommissionSecures(c, Next(c, e), p, e.step.out, e.now);
  }

  lemma CommissionSecures(c: Core, c1: Core, p: Spot, out: Output, now: Int64)
    requires IsSpot(c.attempts, p) && Commission(c, c1, p, out, now, true)
    ensures Secured(c1, p.task, c.attempts[p.task][p.index].id, out)
    ensures p.task in c1.attempts && p.index < |c1.attempts[p.task]|
    ensures OnRecord(c1, p.task, c1.attempts[p.task][p.index])
  {
    hide Freed, Rest, Written, OnlyAt, Delivers, Filed, Result;
    DeliversResult(c.attempts, c1.attempts, p, out, now);
    WrittenDelivers(c, c1, p.task, c1.attempts[p.task][p.index]);
  }

  lemma WrittenDelivers(c: Core, c1: Core, t: Id, x: Attempt)
    requires Written(c, c1, true) && Filed(c1.attempts, t, x) && x.committed
    ensures Filed(c1.disk.attempts, t, x)
  {
    hide CommittedOnly, InKeyOrder;
    CommittedOnlyKeeps(c1.attempts[t], x);
  }

  /** What a completion delivered and a save recorded, memory and disk hold ever after: in any
      run, whatever is restarted, lost or sent again. So do they the rest of the record, unless
      a late message rewrites it. */
  lemma ResultsLast(c: Core, e: Event, p: Spot, run: seq<Event>)
    requires Inv(c) && e.step.DoComplete? && e.saved && Holds(c.attempts, p, e.step.a)
    requires Acceptable(c, c.attempts[p.task][p.index], e.step.reservation) && Possible(Next(c, e), run)
    ensures Secured(After(Next(c, e), run), p.task, e.step.a, e.step.out)
    ensures p.task in Next(c, e).attempts && p.index < |Next(c, e).attempts[p.task]|
    ensures var y := Next(c, e).attempts[p.task][p.index];
            !EverRewritten(Next(c, e), run, y) ==> OnRecord(After(Next(c, e), run), p.task, y)
  {
    CommitIsSecured(c, e, p);
    assert Enabled(c, e);
    NextInv(c, e);
    hide Next, Inv, Secured, Acceptable, Enabled, OnRecord, EverRewritten;
    ResultIsForever(Next(c, e), run, p.task, e.step.a, e.step.out);
    var y := Next(c, e).attempts[p.task][p.index];
    if !EverRewritten(Next(c, e), run, y) {
      RecordLasts(Next(c, e), run, p.task, y);
    }
  }

  // ----- the rest of the record -----

  /** Whether an event rewrites a committed attempt: only these two messages are not checked
      against its commitment. */
  ghost predicate Rewrites(c: Core, e: Event, x: Attempt) {
    (e.step.DoStarted? || e.step.DoCancelled?) && e.step.a == x.id && x.epoch == Epoch(c)
  }

  lemma MessageSparesCommitted(c: Core, e: Event, p: Spot)
    requires MemoryInv(c) && IsSpot(c.attempts, p) && c.attempts[p.task][p.index].committed
    requires Subject(e) == Some(c.attempts[p.task][p.index].id) && !Rewrites(c, e, c.attempts[p.task][p.index])
    ensures Next(c, e) == c
  {
    assert Holds(c.attempts, p, Subject(e).value);
    match e.step {
      case DoStarted(_, _, _) => StartedMarks(c, e, p);
      case DoComplete(_, _, _) => CompletionRefused(c, e, p);
      case DoFailed(_, _, _) => FailureDecides(c, e, p);
      case DoCancelled(_, _) => NodeCancelCloses(c, e, p);
    }
  }

  /** Of a committed attempt, outside a restart, an event changes nothing unless it is a late
      started or cancelled message for it; a late started message puts its own device in place
      of the one delivered, and calls the attempt started. */
  lemma CommittedChanges(c: Core, e: Event, p: Spot)
    requires MemoryInv(c) && !e.step.DoRestart? && IsSpot(c.attempts, p) && c.attempts[p.task][p.index].committed
    ensures IsSpot(Next(c, e).attempts, p)
    ensures var x, y := c.attempts[p.task][p.index], Next(c, e).attempts[p.task][p.index];
            if !Rewrites(c, e, x) then y == x
            else if e.step.DoStarted? then Begun(x, y, e.step.startedAt, e.step.device)
            else Closed(x, y, e.now) && y.failureReason == e.step.reason
  {
    var x := c.attempts[p.task][p.index];
    if Subject(e) != Some(x.id) {
      OnlyItsMessages(c, e, p);
    } else if !Rewrites(c, e, x) {
      MessageSparesCommitted(c, e, p);
    } else {
      assert Holds(c.attempts, p, x.id);
      if e.step.DoStarted? { StartedMarks(c, e, p); } else { NodeCancelCloses(c, e, p); }
    }
  }

  /** The attempt is on record as it is, in memory and on disk. */
  ghost predicate OnRecord(c: Core, t: Id, x: Attempt) {
    x.committed && Filed(c.attempts, t, x) && Filed(c.disk.attempts, t, x)
  }

  /** Some event of the run rewrites the attempt. */
  ghost predicate EverRewritten(c: Core, run: seq<Event>, x: Attempt)
    decreases |run|
  {
    run != [] && (Rewrites(c, run[0], x) || EverRewritten(Next(c, run[0]), run[1..], x))
  }

  lemma NextOnRecord(c: Core, e: Event, t: Id, x: Attempt)
    requires Inv(c) && Enabled(c, e) && OnRecord(c, t, x) && !Rewrites(c, e, x)
    ensures OnRecord(Next(c, e), t, x)
  {
    NextThrough(c, e);
    if e.step.DoRestart? {
      RestartResumes(c, e);
    } else {
      var p := FiledAt(c.attempts, t, x);
      CommittedChanges(c, e, p);
    }
    hide Next, Inv, Enabled;
    if Synced(Next(c, e)) {
      SyncedOnRecord(Next(c, e), t, x);
    }
  }

  /** A committed attempt on record stays so entirely, state, time and device included, in every
      run that has no such late message for it in its epoch. */
  lemma {:induction false} RecordLasts(c: Core, run: seq<Event>, t: Id, x: Attempt)
    requires Inv(c) && Possible(c, run) && OnRecord(c, t, x) && !EverRewritten(c, run, x)
    ensures OnRecord(After(c, run), t, x)
    decreases |run|
  {
    hide Inv, Next, OnRecord, Rewrites, Enabled;
    if run != [] {
      NextInv(c, run[0]);
      NextOnRecord(c, run[0], t, x);
      RecordLasts(Next(c, run[0]), run[1..], t, x);
    }
  }

  // ----- failures -----

  /** A failure of the last attempt the policy has, or of a later one, never leads to a retry: it
      neither makes its task wait for one nor sets its timer. Only a number that wraps escapes. */
  lemma LastFailureIsFinal(c: Core, e: Event, p: Spot)
    requires MemoryInv(c) && e.step.DoFailed? && Holds(c.attempts, p, e.step.a) && p.task in c.graph.tasks
    requires var number := c.attempts[p.task][p.index].attemptNumber;
             number + 1 >= c.graph.tasks[p.task].retry.maxAttempts && number < TWO_32 - 1
    ensures var c1 := Next(c, e);
            && c1.retryReadyAt == c.retryReadyAt
            && (TaskStateOf(c1, p.task) == RETRY_PENDING ==> TaskStateOf(c, p.task) == RETRY_PENDING)
            && (TaskStateOf(c, p.task) == RUNNING && !Over(c, c.attempts[p.task][p.index]) ==>
                  TaskStateOf(c1, p.task) == FAILED)
  {
    hide MemoryInv, Next, Freed, Written, OnlyAt, Fails, Rest;
    FailureDecides(c, e, p);
  }

  /** A failure brings a failed task back: it is of another attempt of this epoch, and one the
      policy would retry. */
  ghost predicate FailsAgain(c: Core, e: Event, t: Id) {
    && e.step.DoFailed? && t in c.graph.tasks
    && exists p :: Holds(c.attempts, p, e.step.a) && p.task == t && !Over(c, c.attempts[p.task][p.index])
         && Another(c.graph.tasks[t].retry, c.attempts[p.task][p.index].attemptNumber, e.step.kind)
  }

  /** The loss of a node brings a failed task back: an attempt of it is still on record as under
      way there, and the policy retries after a loss. */
  ghost predicate LosesAgain(c: Core, e: Event, t: Id) {
    && e.step.DoLoseNode? && e.step.n in c.nodes && c.nodes[e.step.n].health != Offline
    && AtWork(c.attempts, t, e.step.n) && t in c.graph.tasks && Retried(c.graph.tasks[t].retry)
  }

  ghost predicate Revives(c: Core, e: Event, t: Id) {
    FailsAgain(c, e, t) || LosesAgain(c, e, t)
  }

  lemma MovedOther(g: Graph, g1: Graph, u: Id, s: TaskState, t: Id)
    requires Moved(g, g1, u, s) && u != t
    ensures StateOf(g1, t) == StateOf(g, t)
  {
  }

  lemma CommitLeavesFailed(c: Core, e: Event, t: Id)
    requires MemoryInv(c) && !e.step.DoRestart? && CommitTask(c, e).Some? && TaskStateOf(c, t) == FAILED
    ensures TaskStateOf(Next(c, e), t) == FAILED
  {
    NextHistory(c, e);
    hide MemoryInv, Next, CommitTask, CommitAttempts;
  }

  lemma ClosureLeavesFailed(c: Core, c1: Core, q: Spot, reason: Bytes, now: Int64, saved: bool, t: Id)
    requires IsSpot(c.attempts, q) && Closure(c, c1, q, reason, now, saved) && TaskStateOf(c, t) == FAILED
    ensures TaskStateOf(c1, t) == FAILED
  {
    hide OnlyAt, Freed, Written, Rest, Closed, SameTimes;
  }

  lemma BeginningLeavesFailed(c: Core, c1: Core, q: Spot, startedAt: Int64, device: Bytes, saved: bool, t: Id)
    requires IsSpot(c.attempts, q) && Beginning(c, c1, q, startedAt, device, saved) && TaskStateOf(c, t) == FAILED
    ensures TaskStateOf(c1, t) == FAILED
  {
    hide OnlyAt, Written, Rest, Begun, SameTimes, SameHoldings;
  }

  lemma FailureOnFailed(c: Core, c1: Core, q: Spot, kind: FailureKind, reason: Bytes, now: Int64, saved: bool, t: Id)
    requires IsSpot(c.attempts, q) && q.task in c.graph.tasks && q.task in c.graph.states
    requires Failure(c, c1, q, kind, reason, now, saved) && TaskStateOf(c, t) == FAILED
    ensures TaskStateOf(c1, t)
            == if q.task == t && Another(c.graph.tasks[t].retry, c.attempts[q.task][q.index].attemptNumber, kind)
               then RETRY_PENDING else FAILED
  {
    hide OnlyAt, Freed, Written, Rest, Fails, Timed, Another;
  }

  lemma CompletionLeavesFailed(c: Core, e: Event, q: Spot, t: Id)
    requires MemoryInv(c) && e.step.DoComplete? && Holds(c.attempts, q, e.step.a) && TaskStateOf(c, t) == FAILED
    ensures TaskStateOf(Next(c, e), t) == FAILED
  {
    hide MemoryInv, Next, CommitTask, Commission, Closure, Acceptable;
    CompletionDelivers(c, e, q);
    if CommitTask(c, e).Some? {
      CommitLeavesFailed(c, e, t);
    } else {
      CompletionRefused(c, e, q);
      if Next(c, e) != c {
        ClosureLeavesFailed(c, Next(c, e), q, CANCELLED_WORD, e.now, e.saved, t);
      }
    }
  }

  lemma FailureMessageOnFailed(c: Core, e: Event, q: Spot, t: Id)
    requires MemoryInv(c) && e.step.DoFailed? && Holds(c.attempts, q, e.step.a) && TaskStateOf(c, t) == FAILED
    ensures TaskStateOf(Next(c, e), t) == if FailsAgain(c, e, t) then RETRY_PENDING else FAILED
  {
    hide MemoryInv, Next, Failure, Another, Over;
    FailureDecides(c, e, q);
    OnlyThere(c, q, e.step.a);
    if !Over(c, c.attempts[q.task][q.index]) {
      FailureOnFailed(c, Next(c, e), q, e.step.kind, e.step.reason, e.now, e.saved, t);
    }
  }

  lemma MessageOnFailed(c: Core, e: Event, q: Spot, t: Id)
    requires MemoryInv(c) && Subject(e).Some? && Holds(c.attempts, q, Subject(e).value) && TaskStateOf(c, t) == FAILED
    ensures TaskStateOf(Next(c, e), t) == if FailsAgain(c, e, t) then RETRY_PENDING else FAILED
  {
    hide MemoryInv, Next, Beginning, Closure, Another, Over;
    match e.step {
      case DoStarted(_, startedAt, device) =>
        StartedMarks(c, e, q);
        if Next(c, e) != c { BeginningLeavesFailed(c, Next(c, e), q, startedAt, device, e.saved, t); }
      case DoComplete(_, _, _) => CompletionLeavesFailed(c, e, q, t);
      case DoFailed(_, _, _) => FailureMessageOnFailed(c, e, q, t);
      case DoCancelled(_, reason) =>
        NodeCancelCloses(c, e, q);
        if Next(c, e) != c { ClosureLeavesFailed(c, Next(c, e), q, reason, e.now, e.saved, t); }
    }
  }

  lemma OnlyThere(c: Core, q: Spot, a: Id)
    requires MemoryInv(c) && Holds(c.attempts, q, a)
    ensures forall p :: Holds(c.attempts, p, a) ==> p == q
  {
    forall p | Holds(c.attempts, p, a) ensures p == q {
      FoundAt(c, p, a);
      FoundAt(c, q, a);
    }
  }

  lemma SubmitOnFailed(c: Core, e: Event, t: Id)
    requires MemoryInv(c) && e.step.DoSubmit? && TaskStateOf(c, t) == FAILED
    ensures TaskStateOf(Next(c, e), t) == FAILED
  {
    hide MemoryInv, Next, Written, AtWork;
    SubmitEnters(c, e);
    KnownAttempts(c);
  }

  lemma CancelOnFailed(c: Core, e: Event, t: Id)
    requires MemoryInv(c) && e.step.DoCancel? && TaskStateOf(c, t) == FAILED
    ensures TaskStateOf(Next(c, e), t) == FAILED
  {
    hide MemoryInv, Next, Written, Freed, Rest, AttemptsOf;
    CancelAsks(c, e);
  }

  lemma PlacingOnFailed(c: Core, e: Event, t: Id)
    requires MemoryInv(c) && e.step.DoSchedule? && TaskStateOf(c, t) == FAILED
    ensures TaskStateOf(Next(c, e), t) == FAILED
  {
    hide MemoryInv, Next, Sends, SentOut, SameHoldings;
    PlacingFrame(c, e);
  }

  lemma SweepOnFailed(c: Core, e: Event, t: Id)
    requires MemoryInv(c) && (e.step.DoRequeue? || e.step.DoRetry? || e.step.DoExpire?) && TaskStateOf(c, t) == FAILED
    ensures TaskStateOf(Next(c, e), t) == FAILED
  {
    hide MemoryInv, Next, Written, Freed, Rest;
    match e.step {
      case DoRequeue(_) => RequeueIff(c, e);
      case DoRetry(_) => RetryIff(c, e);
      case DoExpire(_) => ExpireIff(c, e);
    }
  }

  lemma OtherEventOnFailed(c: Core, e: Event, t: Id)
    requires MemoryInv(c) && Subject(e).None? && !e.step.DoRestart? && !e.step.DoLoseNode? && TaskStateOf(c, t) == FAILED
    ensures TaskStateOf(Next(c, e), t) == FAILED
  {
    hide MemoryInv, Next;
    match e.step {
      case DoSubmit(_, _, _, _) => SubmitOnFailed(c, e, t);
      case DoCancel(_) => CancelOnFailed(c, e, t);
      case DoRelease(_) => ReleaseSays(c, e);
      case DoNodeNews(_, _) => NewsTouchesNodes(c, e);
      case DoSchedule(_, _) => PlacingOnFailed(c, e, t);
      case DoPersist => SaveTouchesDisk(c, e);
      case _ => SweepOnFailed(c, e, t);
    }
  }

  lemma OfflineOnFailed(c: Core, c1: Core, n: Id, now: Int64, t: Id)
    requires n in c.nodes && c.graph.states.Keys == c.graph.tasks.Keys && GoesOffline(c, c1, n, now)
    requires TaskStateOf(c, t) == FAILED
    ensures t in c.graph.tasks
    ensures TaskStateOf(c1, t) == if AtWork(c.attempts, t, n) && Retried(c.graph.tasks[t].retry) then RETRY_PENDING else FAILED
  {
    hide AtWork, LossHoldings, SameTimer;
  }

  lemma LossOnFailed(c: Core, e: Event, t: Id)
    requires MemoryInv(c) && e.step.DoLoseNode? && TaskStateOf(c, t) == FAILED
    ensures TaskStateOf(Next(c, e), t) == if LosesAgain(c, e, t) then RETRY_PENDING else FAILED
  {
    hide MemoryInv, Next, Written, AtWork, GoesOffline, Retried;
    LossSays(c, e);
    if e.step.n in c.nodes && c.nodes[e.step.n].health != Offline {
      OfflineOnFailed(c, Next(c, e), e.step.n, e.now, t);
    }
  }

  /** A failed task stays failed, unless the event revives it: then, and outside a restart only
      then, it waits for a retry after all. */
  lemma FailedLeavesIff(c: Core, e: Event, t: Id)
    requires MemoryInv(c) && !e.step.DoRestart? && TaskStateOf(c, t) == FAILED
    ensures TaskStateOf(Next(c, e), t) == if Revives(c, e, t) then RETRY_PENDING else FAILED
  {
    hide MemoryInv, Next;
    if Subject(e).Some? {
      if Known(c.attempts, Subject(e).value) {
        MessageOnFailed(c, e, Find(c.attempts, Subject(e).value), t);
      } else {
        UnknownIsIgnored(c, e, Subject(e).value);
      }
    } else if e.step.DoLoseNode? {
      LossOnFailed(c, e, t);
    } else {
      OtherEventOnFailed(c, e, t);
    }
  }

  ghost predicate FailedForGood(c: Core, t: Id) {
    TaskStateOf(c, t) == FAILED && t in c.disk.taskStates && c.disk.taskStates[t] == FAILED
  }

  ghost predicate EverRevived(c: Core, run: seq<Event>, t: Id)
    decreases |run|
  {
    run != [] && (Revives(c, run[0], t) || EverRevived(Next(c, run[0]), run[1..], t))
  }

  lemma NextFailed(c: Core, e: Event, t: Id)
    requires Inv(c) && Enabled(c, e) && FailedForGood(c, t) && !Revives(c, e, t)
    ensures FailedForGood(Next(c, e), t)
  {
    NextThrough(c, e);
    if e.step.DoRestart? {
      RestartResumes(c, e);
      DurableIsGood(c.disk);
    } else {
      FailedLeavesIff(c, e, t);
    }
    hide Next, MemoryInv, DurableInv, Enabled, Revives, DepsOf;
  }

  /** A failed task that is saved stays failed in every run that does not revive it. */
  lemma {:induction false} FailedStays(c: Core, run: seq<Event>, t: Id)
    requires Inv(c) && Possible(c, run) && FailedForGood(c, t) && !EverRevived(c, run, t)
    ensures FailedForGood(After(c, run), t)
    decreases |run|
  {
    hide Inv, Next, FailedForGood, Revives, Enabled;
    if run != [] {
      NextInv(c, run[0]);
      NextFailed(c, run[0], t);
      FailedStays(Next(c, run[0]), run[1..], t);
    }
  }

  // ----- cancellation -----

  lemma CommissionKeepsRequest(c: Core, c1: Core, q: Spot, out: Output, now: Int64, saved: bool, t: Id)
    requires IsSpot(c.attempts, q) && Commission(c, c1, q, out, now, saved) && q.task != t && t in c.cancelRequested
    ensures t in c1.cancelRequested
  {
    hide OnlyAt, Freed, Written, Rest, Delivers;
  }

  lemma ClosureKeepsRequest(c: Core, c1: Core, q: Spot, reason: Bytes, now: Int64, saved: bool)
    requires IsSpot(c.attempts, q) && Closure(c, c1, q, reason, now, saved)
    ensures c1.cancelRequested == c.cancelRequested
  {
    hide OnlyAt, Freed, Written, Rest, Closed, Preempted;
  }

  lemma CompletionKeepsRequest(c: Core, e: Event, q: Spot, t: Id)
    requires MemoryInv(c) && e.step.DoComplete? && Holds(c.attempts, q, e.step.a) && t in c.cancelRequested
    ensures t in Next(c, e).cancelRequested && CommitTask(c, e) != Some(t)
  {
    hide MemoryInv, Next, CommitTask, Commission, Closure, Known;
    FoundAt(c, q, e.step.a);
    CompletionDelivers(c, e, q);
    if Acceptable(c, c.attempts[q.task][q.index], e.step.reservation) {
      CommissionKeepsRequest(c, Next(c, e), q, e.step.out, e.now, e.saved, t);
    } else {
      CompletionRefused(c, e, q);
      if Next(c, e) != c {
        ClosureKeepsRequest(c, Next(c, e), q, CANCELLED_WORD, e.now, e.saved);
      }
    }
  }

  lemma MessageKeepsRequest(c: Core, e: Event, q: Spot, t: Id)
    requires MemoryInv(c) && Subject(e).Some? && Holds(c.attempts, q, Subject(e).value) && t in c.cancelRequested
    ensures t in Next(c, e).cancelRequested && CommitTask(c, e) != Some(t)
  {
    hide MemoryInv, Next, OnlyAt, Freed, Written, Rest, Fails, Closed, Begun, Another, Moved, Preempted, Timed, Over, Resolved;
    match e.step {
      case DoStarted(_, _, _) => StartedMarks(c, e, q);
      case DoComplete(_, _, _) => CompletionKeepsRequest(c, e, q, t);
      case DoFailed(_, _, _) => FailureDecides(c, e, q);
      case DoCancelled(_, _) => NodeCancelCloses(c, e, q);
    }
  }

  lemma CancelKeepsRequest(c: Core, e: Event, t: Id)
    requires MemoryInv(c) && e.step.DoCancel? && t in c.cancelRequested
    ensures t in Next(c, e).cancelRequested || TaskStateOf(Next(c, e), t) == CANCELLED
  {
    hide MemoryInv, Next, Written, Freed, Rest, AttemptsOf, Cancellable;
    CancelAsks(c, e);
  }

  lemma SweepKeepsRequests(c: Core, e: Event)
    requires MemoryInv(c) && (e.step.DoRequeue? || e.step.DoRetry? || e.step.DoExpire?)
    ensures Next(c, e).cancelRequested == c.cancelRequested
  {
    hide MemoryInv, Next, Written, Freed, Rest, Moved;
    match e.step {
      case DoRequeue(_) => RequeueIff(c, e);
      case DoRetry(_) => RetryIff(c, e);
      case DoExpire(_) => ExpireIff(c, e);
    }
  }

  lemma PlacingKeepsRequests(c: Core, e: Event)
    requires MemoryInv(c) && e.step.DoSchedule?
    ensures Next(c, e).cancelRequested == c.cancelRequested
  {
    hide MemoryInv, Next, Sends, SentOut, SameHoldings;
    PlacingFrame(c, e);
  }

  lemma LossKeepsRequests(c: Core, e: Event)
    requires MemoryInv(c) && e.step.DoLoseNode?
    ensures Next(c, e).cancelRequested == c.cancelRequested
  {
    hide MemoryInv, Next, Written, AtWork, LossHoldings;
    LossSays(c, e);
  }

  lemma OtherEventKeepsRequest(c: Core, e: Event, t: Id)
    requires MemoryInv(c) && Subject(e).None? && !e.step.DoRestart? && t in c.cancelRequested
    ensures t in Next(c, e).cancelRequested || TaskStateOf(Next(c, e), t) == CANCELLED
  {
    hide MemoryInv, Next, Written, Welcome;
    match e.step {
      case DoSubmit(_, _, _, _) => SubmitEnters(c, e);
      case DoCancel(_) => CancelKeepsRequest(c, e, t);
      case DoRelease(_) => ReleaseSays(c, e);
      case DoNodeNews(_, _) => NewsTouchesNodes(c, e);
      case DoLoseNode(_) => LossKeepsRequests(c, e);
      case DoSchedule(_, _) => PlacingKeepsRequests(c, e);
      case DoPersist => SaveTouchesDisk(c, e);
      case _ => SweepKeepsRequests(c, e);
    }
  }

  /** Cancellation of `t` was asked for, or it is cancelled. */
  ghost predicate Doomed(c: Core, t: Id) {
    t in c.cancelRequested || TaskStateOf(c, t) == CANCELLED
  }

  lemma CancelledStays(c: Core, e: Event, t: Id)
    requires MemoryInv(c) && !e.step.DoRestart? && TaskStateOf(c, t) == CANCELLED
    ensures TaskStateOf(Next(c, e), t) == CANCELLED && CommitTask(c, e) != Some(t)
  {
    hide MemoryInv, Next, CommitTask, CommitAttempts, Carries, Evolves;
    StepKeepsFinal(c, e, t);
    NextHistory(c, e);
  }

  lemma NextDoomed(c: Core, e: Event, t: Id)
    requires MemoryInv(c) && !e.step.DoRestart? && Doomed(c, t)
    ensures Doomed(Next(c, e), t) && CommitTask(c, e) != Some(t)
  {
    hide MemoryInv, Next;
    if TaskStateOf(c, t) == CANCELLED {
      CancelledStays(c, e, t);
    } else if Subject(e).None? {
      OtherEventKeepsRequest(c, e, t);
    } else if Known(c.attempts, Subject(e).value) {
      MessageKeepsRequest(c, e, Find(c.attempts, Subject(e).value), t);
    } else {
      UnknownIsIgnored(c, e, Subject(e).value);
    }
  }

  lemma DoomedCommitsNothing(c: Core, e: Event, t: Id)
    requires MemoryInv(c) && !e.step.DoRestart? && Doomed(c, t)
    ensures CommitCount(Next(c, e).attempts, t) == CommitCount(c.attempts, t)
    ensures TaskStateOf(Next(c, e), t) == SUCCEEDED <==> TaskStateOf(c, t) == SUCCEEDED
  {
    hide MemoryInv, Next, CommitTask, CommitCount, Doomed, Carries, CommitAttempts, Evolves, CommitStates, SucceededIn;
    NextDoomed(c, e, t);
    NextHistory(c, e);
    Succeeding(c, t);
    Succeeding(Next(c, e), t);
    if CommitTask(c, e).Some? {
      CommitCounts(c.attempts, Next(c, e).attempts, CommitTask(c, e).value, Epoch(c), t);
      CommitSucceeds(c.graph, Next(c, e).graph, CommitTask(c, e).value, t);
    } else {
      CarriesCounts(c.attempts, Next(c, e).attempts, Epoch(c), t);
      EvolvesSucceeds(c.graph, Next(c, e).graph, t);
    }
  }

  lemma Succeeding(c: Core, t: Id)
    ensures SucceededIn(c.graph.states, t) <==> TaskStateOf(c, t) == SUCCEEDED
  {
  }

  /** Once asked for, a cancellation holds until the next restart: the task commits nothing
      more and does not succeed, whatever its node still reports. A restart forgets it. */
  lemma {:induction false} CancellationHolds(c: Core, run: seq<Event>, t: Id)
    requires Inv(c) && Possible(c, run) && Restarts(run) == 0 && Doomed(c, t)
    ensures Doomed(After(c, run), t) && CommitCount(After(c, run).attempts, t) == CommitCount(c.attempts, t)
    ensures TaskStateOf(After(c, run), t) == SUCCEEDED <==> TaskStateOf(c, t) == SUCCEEDED
    decreases |run|
  {
    hide Inv, Next, Doomed, Enabled, CommitCount;
    if run != [] {
      NextInv(c, run[0]);
      SoundMemory(c);
      NextDoomed(c, run[0], t);
      DoomedCommitsNothing(c, run[0], t);
      CancellationHolds(Next(c, run[0]), run[1..], t);
    }
  }

  lemma SoundMemory(c: Core)
    requires Inv(c)
    ensures MemoryInv(c)
  {
  }

  // ----- after a restart -----

  /** A task that was active when the record was saved is ready again once its own back-off has
      passed since the restart, and not before, if its policy allows a retry after a loss; and
      no retry event ever readies it otherwise. */
  lemma InterruptedIsRetried(c: Core, e: Event, r: Event, t: Id)
    requires Inv(c) && Enabled(c, e) && e.step.DoRestart? && r.step == DoRetry(t) && Interrupted(c.disk, t)
    ensures var c1, policy := Next(c, e), c.disk.tasks[t].retry;
            if policy.retryOnNodeLoss && policy.maxAttempts > 1 then
              && TaskStateOf(c1, t) == RETRY_PENDING
              && (TaskStateOf(Next(c1, r), t) == READY <==> r.now >= e.now + AsInt64(policy.retryBackoffMs))
            else TaskStateOf(c1, t) == FAILED && Next(c1, r) == c1
  {
    RestartResumes(c, e);
    NextInv(c, e);
    SoundMemory(Next(c, e));
    RetryIff(Next(c, e), r);
    hide Inv, MemoryInv, Next, Enabled, DepsOf, Written, Rest, SameHoldings;
  }
}
