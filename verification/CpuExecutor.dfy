/**
 The CPU executor: callers, workers, cancellers and a shutdown interleaved in every way
 the mutex and the atomic flag allow. Every critical section is one step, except that of
 `enqueue`, which reads the flag and pushes in two: the flag is set without the mutex.
 */
module CpuExecutor {
  import opened Basics

  const QUEUE_LIMIT := 1024

  /** A work item; `serial` tells items with the same attempt apart. */
  datatype Work = Work(attempt: Id, serial: nat)

  datatype Worker =
    | Idle
    | Running(work: Work)
    | Finished(work: Work)  // reported, its token not yet removed
    | Exited

  /** Where the thread is whose shutdown set the flag. */
  datatype Closer = NotClosing | FlagSet(drain: bool) | Joining | Returned

  datatype State = State(
    queue: seq<Work>,
    tokens: map<Id, Work>,
    stopping: bool,
    pushing: Option<Work>,  // an enqueue inside the mutex, past its checks
    workers: seq<Worker>,
    closer: Closer,
    accepted: multiset<Work>,
    completed: multiset<Work>,
    cancelled: set<Work>)

  datatype Step =
    | Enqueue(work: Work)
    | Push
    | Take(i: nat)
    | Complete(i: nat)
    | Forget(i: nat)
    | Exit(i: nat)
    | Cancel(attempt: Id)
    | SetFlag(drain: bool)
    | RequestAll
    | Return

  ghost predicate Enabled(s: State, e: Step) {
    match e
    case Enqueue(_) => s.pushing == None
    case Push => s.pushing.Some?
    case Take(i) => s.pushing == None && i < |s.workers| && s.workers[i] == Idle && s.queue != []
    case Complete(i) => i < |s.workers| && s.workers[i].Running?
    case Forget(i) => s.pushing == None && i < |s.workers| && s.workers[i].Finished?
    case Exit(i) => s.pushing == None && i < |s.workers| && s.workers[i] == Idle && s.queue == [] && s.stopping
    case Cancel(_) => s.pushing == None
    case SetFlag(_) => true
    case RequestAll => s.pushing == None && s.closer.FlagSet?
    case Return => s.closer == Joining && forall i :: 0 <= i < |s.workers| ==> s.workers[i] == Exited
  }

  /** Whether an enqueue that gets the mutex now will go on to push. */
  predicate Admits(s: State) {
    !s.stopping && |s.queue| < QUEUE_LIMIT
  }

  function FirstQueued(queue: seq<Work>, attempt: Id): Option<Work> {
    if queue == [] then None
    else if queue[0].attempt == attempt then Some(queue[0]) else FirstQueued(queue[1..], attempt)
  }

  /** The item a cancellation reaches: the first queued one with that attempt, or else the
      one whose token is kept. */
  function Found(s: State, attempt: Id): Option<Work> {
    var q := FirstQueued(s.queue, attempt);
    if q.Some? then q else if attempt in s.tokens then Some(s.tokens[attempt]) else None
  }

  ghost function Next(s: State, e: Step): State
    requires Enabled(s, e)
  {
    match e
    case Enqueue(w) => if Admits(s) then s.(pushing := Some(w)) else s
    case Push =>
      s.(queue := s.queue + [s.pushing.value], pushing := None, accepted := s.accepted + multiset{s.pushing.value})
    case Take(i) =>
      var w := s.queue[0];
      s.(queue := s.queue[1..], tokens := s.tokens[w.attempt := w], workers := s.workers[i := Running(w)])
    case Complete(i) =>
      var w := s.workers[i].work;
      s.(workers := s.workers[i := Finished(w)], completed := s.completed + multiset{w})
    case Forget(i) =>
      var w := s.workers[i].work;
      s.(tokens := s.tokens - {w.attempt}, workers := s.workers[i := Idle])
    case Exit(i) => s.(workers := s.workers[i := Exited])
    case Cancel(a) =>
      var f := Found(s, a);
      if f == None then s else s.(cancelled := s.cancelled + {f.value})
    case SetFlag(drain) => if s.stopping then s else s.(stopping := true, closer := FlagSet(drain))
    case RequestAll =>
      s.(cancelled := if s.closer.drain then s.cancelled else s.cancelled + (set w | w in s.queue), closer := Joining)
    case Return => s.(closer := Returned)
  }

  /** The number of workers made for a requested number of slots. */
  function Motors(slots: int): nat {
    if slots > 0 then slots else 1
  }

  /** Workers waiting on an empty queue. */
  function Initial(slots: int): State {
    State([], map[], false, None, seq(Motors(slots), i => Idle), NotClosing, multiset{}, multiset{}, {})
  }

  ghost predicate Possible(s: State, run: seq<Step>)
    decreases |run|
  {
    run == [] || (Enabled(s, run[0]) && Possible(Next(s, run[0]), run[1..]))
  }

  ghost function After(s: State, run: seq<Step>): State
    requires Possible(s, run)
    decreases |run|
  {
    if run == [] then s else After(Next(s, run[0]), run[1..])
  }

  // ----- no item is lost or run twice -----

  /** The item a worker runs, if any. */
  function Hand(w: Worker): multiset<Work> {
    if w.Running? then multiset{w.work} else multiset{}
  }

  /** What the workers have, with multiplicity. */
  function InHand(workers: seq<Worker>): multiset<Work> {
    if workers == [] then multiset{} else Hand(workers[0]) + InHand(workers[1..])
  }

  lemma {:induction false} InHandUpdate(workers: seq<Worker>, i: nat, w: Worker)
    requires i < |workers|
    ensures InHand(workers[i := w]) + Hand(workers[i]) == InHand(workers) + Hand(w)
    decreases |workers|
  {
    hide Hand;
    var u, rest := workers[i := w], workers[1..];
    if i == 0 {
      assert u[1..] == rest;
    } else {
      assert u[1..] == rest[i - 1 := w];
      InHandUpdate(rest, i - 1, w);
      Regroup(Hand(workers[0]), InHand(u[1..]), Hand(workers[i]), InHand(rest), Hand(w));
    }
  }

  lemma Regroup(h: multiset<Work>, x: multiset<Work>, p: multiset<Work>, y: multiset<Work>, q: multiset<Work>)
    requires x + p == y + q
    ensures (h + x) + p == (h + y) + q
  {
    assert (h + x) + p == h + (x + p);
    assert (h + y) + q == h + (y + q);
  }

  ghost predicate SomeExited(s: State) {
    exists i :: 0 <= i < |s.workers| && s.workers[i] == Exited
  }

  /** Every accepted item is queued, in hand or completed, exactly once. */
  ghost predicate Balanced(s: State) {
    s.accepted == multiset(s.queue) + InHand(s.workers) + s.completed
  }

  /** The queue is bounded; and once a worker has left, the flag is set and nothing is queued
      or about to be. */
  ghost predicate Orderly(s: State) {
    && |s.workers| > 0 && |s.queue| + (if s.pushing.Some? then 1 else 0) <= QUEUE_LIMIT
    && (SomeExited(s) ==> s.stopping && s.queue == [] && s.pushing == None)
    && (s.closer != NotClosing ==> s.stopping)
    && (s.closer == Returned ==> forall i :: 0 <= i < |s.workers| ==> s.workers[i] == Exited)
  }

  ghost predicate Inv(s: State) {
    Balanced(s) && Orderly(s)
  }

  lemma {:induction false} IdleInHand(workers: seq<Worker>)
    requires forall i :: 0 <= i < |workers| ==> workers[i] == Idle || workers[i] == Exited
    ensures InHand(workers) == multiset{}
    decreases |workers|
  {
    if workers != [] {
      IdleInHand(workers[1..]);
    }
  }

  lemma InitialInv(slots: int)
    ensures Inv(Initial(slots))
  {
    IdleInHand(Initial(slots).workers);
  }

  /** A change to one worker that was not and is not gone keeps the others' absence. */
  lemma ExitedKept(s: State, i: nat, w: Worker)
    requires i < |s.workers| && s.workers[i] != Exited && w != Exited
    ensures SomeExited(s.(workers := s.workers[i := w])) ==> SomeExited(s)
  {
    var t := s.(workers := s.workers[i := w]);
    if k :| 0 <= k < |t.workers| && t.workers[k] == Exited {
      assert s.workers[k] == Exited;
    }
  }

  /** Moving an item from one place to the next keeps the count. */
  lemma Balance(a: multiset<Work>, q: multiset<Work>, q1: multiset<Work>, h: multiset<Work>, h1: multiset<Work>,
                d: multiset<Work>, d1: multiset<Work>, x: multiset<Work>, y: multiset<Work>)
    requires a == q + h + d && h1 + x == h + y && q1 + y + d1 == q + x + d
    ensures a == q1 + h1 + d1
  {
    forall w ensures a[w] == (q1 + h1 + d1)[w] {
      assert (h1 + x)[w] == (h + y)[w];
      assert (q1 + y + d1)[w] == (q + x + d)[w];
      assert (q + h + d)[w] == a[w];
    }
  }

  lemma WorkerBalance(s: State, i: nat, w: Worker, s1: State)
    requires Balanced(s) && i < |s.workers| && s1.workers == s.workers[i := w] && s1.accepted == s.accepted
    requires multiset(s1.queue) + Hand(w) + s1.completed
             == multiset(s.queue) + Hand(s.workers[i]) + s.completed
    ensures Balanced(s1)
  {
    InHandUpdate(s.workers, i, w);
    hide InHand, Hand;
    Balance(s.accepted, multiset(s.queue), multiset(s1.queue), InHand(s.workers), InHand(s1.workers),
            s.completed, s1.completed, Hand(s.workers[i]), Hand(w));
  }

  lemma TakeBalance(s: State, i: nat)
    requires Balanced(s) && Enabled(s, Take(i))
    ensures Balanced(Next(s, Take(i)))
  {
    var w := s.queue[0];
    assert s.queue == [w] + s.queue[1..];
    assert multiset(s.queue[1..]) + multiset{w} + s.completed == multiset(s.queue) + multiset{} + s.completed;
    hide InHand;
    WorkerBalance(s, i, Running(w), Next(s, Take(i)));
  }

  lemma CompleteBalance(s: State, i: nat)
    requires Balanced(s) && Enabled(s, Complete(i))
    ensures Balanced(Next(s, Complete(i)))
  {
    var w := s.workers[i].work;
    assert multiset(s.queue) + multiset{} + (s.completed + multiset{w}) == multiset(s.queue) + multiset{w} + s.completed;
    hide InHand;
    WorkerBalance(s, i, Finished(w), Next(s, Complete(i)));
  }

  lemma ForgetBalance(s: State, i: nat)
    requires Balanced(s) && Enabled(s, Forget(i))
    ensures Balanced(Next(s, Forget(i)))
  {
    hide InHand;
    WorkerBalance(s, i, Idle, Next(s, Forget(i)));
  }

  lemma ExitBalance(s: State, i: nat)
    requires Balanced(s) && Enabled(s, Exit(i))
    ensures Balanced(Next(s, Exit(i)))
  {
    hide InHand;
    WorkerBalance(s, i, Exited, Next(s, Exit(i)));
  }

  lemma PushBalance(s: State)
    requires Balanced(s) && s.pushing.Some?
    ensures Balanced(Next(s, Push))
  {
    hide InHand;
    var w := s.pushing.value;
    assert multiset(s.queue + [w]) == multiset(s.queue) + multiset{w};
  }

  lemma NextBalanced(s: State, e: Step)
    requires Balanced(s) && Enabled(s, e)
    ensures Balanced(Next(s, e))
  {
    match e
    case Take(i) => TakeBalance(s, i);
    case Complete(i) => CompleteBalance(s, i);
    case Forget(i) => ForgetBalance(s, i);
    case Exit(i) => ExitBalance(s, i);
    case Push => PushBalance(s);
    case _ => hide InHand, Found;
  }

  lemma NextOrderly(s: State, e: Step)
    requires Orderly(s) && Enabled(s, e)
    ensures Orderly(Next(s, e))
  {
    if e.Take? || e.Complete? || e.Forget? {
      ExitedKept(s, e.i, Next(s, e).workers[e.i]);
    }
    hide Found;
  }

  lemma NextInv(s: State, e: Step)
    requires Inv(s) && Enabled(s, e)
    ensures Inv(Next(s, e))
  {
    hide Next, Enabled, Balanced, Orderly;
    NextBalanced(s, e);
    NextOrderly(s, e);
  }

  lemma {:induction false} RunInv(s: State, run: seq<Step>)
    requires Inv(s) && Possible(s, run)
    ensures Inv(After(s, run))
    decreases |run|
  {
    hide Inv, Next, Enabled;
    if run != [] {
      NextInv(s, run[0]);
      RunInv(Next(s, run[0]), run[1..]);
    }
  }

  /** By the time the first shutdown returns, every accepted item has completed exactly
      once: the two multisets are the same, and nothing is queued or about to be. */
  lemma NothingLost(slots: int, run: seq<Step>)
    requires Possible(Initial(slots), run) && After(Initial(slots), run).closer == Returned
    ensures var s := After(Initial(slots), run);
            s.completed == s.accepted && s.queue == [] && s.pushing == None
  {
    InitialInv(slots);
    RunInv(Initial(slots), run);
    var s := After(Initial(slots), run);
    hide After, Possible;
    assert s.workers[0] == Exited;
    IdleInHand(s.workers);
  }

  /** And nothing is accepted afterwards. */
  lemma {:induction false} ClosedForGood(s: State, run: seq<Step>)
    requires Inv(s) && s.closer == Returned && Possible(s, run)
    ensures After(s, run).closer == Returned && After(s, run).accepted == s.accepted
    decreases |run|
  {
    if run != [] {
      assert s.workers[0] == Exited;
      var s1 := Next(s, run[0]);
      assert s1.closer == Returned && s1.accepted == s.accepted;
      hide Inv, Next, Enabled;
      NextInv(s, run[0]);
      ClosedForGood(s1, run[1..]);
    }
  }

  lemma {:induction false} WorkersKept(s: State, run: seq<Step>)
    requires Possible(s, run)
    ensures |After(s, run).workers| == |s.workers|
    decreases |run|
  {
    if run != [] {
      assert |Next(s, run[0]).workers| == |s.workers|;
      hide Next, Enabled;
      WorkersKept(Next(s, run[0]), run[1..]);
    }
  }

  lemma {:induction false} InHandBounded(workers: seq<Worker>)
    ensures |InHand(workers)| <= |workers|
    decreases |workers|
  {
    if workers != [] {
      InHandBounded(workers[1..]);
    }
  }

  /** No more items run at once than there are motors, and no more wait than the limit. */
  lemma Bounded(slots: int, run: seq<Step>)
    requires Possible(Initial(slots), run)
    ensures var s := After(Initial(slots), run);
            |InHand(s.workers)| <= Motors(slots) && |s.queue| <= QUEUE_LIMIT
  {
    InitialInv(slots);
    RunInv(Initial(slots), run);
    WorkersKept(Initial(slots), run);
    InHandBounded(After(Initial(slots), run).workers);
    hide After, Possible, InHand;
  }

  // ----- cancellation -----

  /** What a caller can ask: whether an item with that attempt is queued or has its token
      kept. */
  function HasActive(s: State, attempt: Id): bool {
    (exists u :: u in s.queue && u.attempt == attempt) || attempt in s.tokens
  }

  lemma {:induction false} QueuedOrNot(queue: seq<Work>, a: Id)
    ensures FirstQueued(queue, a).Some? <==> exists u :: u in queue && u.attempt == a
    ensures FirstQueued(queue, a).Some? ==> FirstQueued(queue, a).value in queue && FirstQueued(queue, a).value.attempt == a
    decreases |queue|
  {
    if queue != [] {
      assert queue == [queue[0]] + queue[1..];
      QueuedOrNot(queue[1..], a);
    }
  }

  /** A cancellation finds something exactly when the question is answered yes. */
  lemma HasActiveIff(s: State, a: Id)
    ensures HasActive(s, a) <==> Found(s, a).Some?
  {
    QueuedOrNot(s.queue, a);
  }

  /** The worker's item stands in the way of another with its attempt: it is running, or it
      is done and its token is still to be removed while other workers take items. */
  ghost predicate Blocks(s: State, i: int) {
    0 <= i < |s.workers| && (s.workers[i].Running? || (s.workers[i].Finished? && |s.workers| > 1))
  }

  /** An item with this attempt is queued or stands in the way. */
  ghost predicate Clashes(s: State, a: Id) {
    (exists u :: u in s.queue && u.attempt == a) || exists i :: Blocks(s, i) && s.workers[i].work.attempt == a
  }

  /** Every token is that of some worker's item. */
  ghost predicate TokensOwned(s: State) {
    forall a :: a in s.tokens ==>
      exists i :: 0 <= i < |s.workers| && (s.workers[i].Running? || s.workers[i].Finished?) && s.workers[i].work.attempt == a
  }

  ghost predicate TokensKept(s: State) {
    forall i :: Blocks(s, i) ==>
      s.workers[i].work.attempt in s.tokens && s.tokens[s.workers[i].work.attempt] == s.workers[i].work
  }

  /** No two items that matter have the same attempt, and each of them in hand has its
      token kept. */
  ghost predicate Apart(s: State) {
    && (forall i, j :: 0 <= i < j < |s.queue| ==> s.queue[i].attempt != s.queue[j].attempt)
    && (forall i, u :: Blocks(s, i) && u in s.queue ==> s.workers[i].work.attempt != u.attempt)
    && (forall i, j :: Blocks(s, i) && Blocks(s, j) && i != j ==> s.workers[i].work.attempt != s.workers[j].work.attempt)
    && (s.pushing.Some? ==> !Clashes(s, s.pushing.value.attempt))
    && TokensKept(s)
  }

  /** With more than one worker, the question tells exactly whether there is a clash; with
      one, an answer of no still tells there is none. */
  lemma ClashIff(s: State, a: Id)
    requires TokensOwned(s) && TokensKept(s)
    ensures Clashes(s, a) ==> HasActive(s, a)
    ensures |s.workers| > 1 ==> (Clashes(s, a) <==> HasActive(s, a))
  {
    if |s.workers| > 1 && a in s.tokens {
      var i :| 0 <= i < |s.workers| && (s.workers[i].Running? || s.workers[i].Finished?) && s.workers[i].work.attempt == a;
      assert Blocks(s, i);
    }
  }

  lemma NextOwned(s: State, e: Step)
    requires TokensOwned(s) && Enabled(s, e)
    ensures TokensOwned(Next(s, e))
  {
    var s1 := Next(s, e);
    hide Found;
    forall a | a in s1.tokens
      ensures exists i :: 0 <= i < |s1.workers| && (s1.workers[i].Running? || s1.workers[i].Finished?)
                          && s1.workers[i].work.attempt == a
    {
      if e.Take? && a == s.queue[0].attempt {
        assert s1.workers[e.i] == Running(s.queue[0]);
      } else {
        var i :| 0 <= i < |s.workers| && (s.workers[i].Running? || s.workers[i].Finished?) && s.workers[i].work.attempt == a;
        assert s1.workers[i].Running? || s1.workers[i].Finished?;
      }
    }
  }

  lemma PushApart(s: State)
    requires Apart(s) && s.pushing.Some?
    ensures Apart(Next(s, Push))
  {
    var s1, w := Next(s, Push), s.pushing.value;
    assert forall i :: Blocks(s1, i) <==> Blocks(s, i);
    forall i | 0 <= i < |s.queue| ensures s.queue[i].attempt != w.attempt {
      assert s.queue[i] in s.queue;
    }
  }

  lemma TakeApart(s: State, i: nat)
    requires Apart(s) && Enabled(s, Take(i))
    ensures Apart(Next(s, Take(i)))
  {
    var s1, w := Next(s, Take(i)), s.queue[0];
    assert w in s.queue;
    assert forall u :: u in s1.queue ==> u in s.queue && u.attempt != w.attempt;
    assert forall j :: Blocks(s1, j) <==> j == i || Blocks(s, j);
    forall j | Blocks(s, j) ensures s.workers[j].work.attempt != w.attempt && j != i {
    }
  }

  lemma CompleteApart(s: State, i: nat)
    requires Apart(s) && Enabled(s, Complete(i))
    ensures Apart(Next(s, Complete(i)))
  {
    var s1 := Next(s, Complete(i));
    assert forall j :: Blocks(s1, j) ==> Blocks(s, j) && s1.workers[j].work == s.workers[j].work;
    if s.pushing.Some? {
      assert !Clashes(s, s.pushing.value.attempt);
    }
  }

  lemma ForgetApart(s: State, i: nat)
    requires Apart(s) && Enabled(s, Forget(i))
    ensures Apart(Next(s, Forget(i)))
  {
    var s1 := Next(s, Forget(i));
    assert forall j :: Blocks(s1, j) ==> Blocks(s, j) && j != i && s1.workers[j] == s.workers[j];
    forall j | Blocks(s1, j) ensures s1.workers[j].work.attempt != s.workers[i].work.attempt {
      assert Blocks(s, i);
    }
  }

  lemma OtherApart(s: State, e: Step)
    requires Apart(s) && Enabled(s, e) && !e.Push? && !e.Take? && !e.Complete? && !e.Forget?
    requires e.Enqueue? && Admits(s) ==> !Clashes(s, e.work.attempt)
    ensures Apart(Next(s, e))
  {
    hide Found;
    var s1 := Next(s, e);
    assert forall j :: Blocks(s1, j) <==> Blocks(s, j) && s1.workers[j] == s.workers[j];
    assert forall a :: Clashes(s1, a) ==> Clashes(s, a);
  }

  /** An enqueue that is admitted meets no clash. */
  ghost predicate Careful(s: State, e: Step) {
    e.Enqueue? && Admits(s) ==> !Clashes(s, e.work.attempt)
  }

  lemma NextApart(s: State, e: Step)
    requires Apart(s) && Enabled(s, e) && Careful(s, e)
    ensures Apart(Next(s, e))
  {
    hide Apart, Next, Enabled, Clashes;
    match e
    case Push => PushStep(s);
    case Take(i) => TakeApart(s, i);
    case Complete(i) => CompleteApart(s, i);
    case Forget(i) => ForgetApart(s, i);
    case _ => OtherApart(s, e);
  }

  lemma PushStep(s: State)
    requires Apart(s) && Enabled(s, Push)
    ensures Apart(Next(s, Push))
  {
    hide Apart, Next;
    PushApart(s);
  }

  ghost predicate CarefulRun(s: State, run: seq<Step>)
    requires Possible(s, run)
    decreases |run|
  {
    run == [] || (Careful(s, run[0]) && CarefulRun(Next(s, run[0]), run[1..]))
  }

  /** Every item that is accepted and not completed is the one a cancellation for its
      attempt reaches. */
  ghost predicate Reached(s: State) {
    forall w :: s.accepted[w] > s.completed[w] ==> Found(s, w.attempt) == Some(w)
  }

  lemma {:induction false} InHandIsHeld(workers: seq<Worker>, x: Work) returns (i: nat)
    requires x in InHand(workers)
    ensures i < |workers| && workers[i] == Running(x)
    decreases |workers|
  {
    if workers[0] == Running(x) {
      i := 0;
    } else {
      var k := InHandIsHeld(workers[1..], x);
      i := k + 1;
    }
  }

  /** An item not completed is queued or running. */
  lemma WhereItIs(s: State, w: Work)
    requires Balanced(s) && s.accepted[w] > s.completed[w]
    ensures w in s.queue || exists i :: 0 <= i < |s.workers| && s.workers[i] == Running(w)
  {
    assert (multiset(s.queue) + InHand(s.workers) + s.completed)[w] == s.accepted[w];
    if w !in s.queue {
      assert w !in multiset(s.queue);
      var i := InHandIsHeld(s.workers, w);
    }
  }

  lemma ApartIsReached(s: State)
    requires Balanced(s) && Apart(s)
    ensures Reached(s)
  {
    hide InHand;
    forall w | s.accepted[w] > s.completed[w] ensures Found(s, w.attempt) == Some(w) {
      WhereItIs(s, w);
      QueuedOrNot(s.queue, w.attempt);
      if w !in s.queue {
        var i :| 0 <= i < |s.workers| && s.workers[i] == Running(w);
        assert Blocks(s, i);
      }
    }
  }

  lemma {:induction false} RunApart(s: State, run: seq<Step>)
    requires Inv(s) && Apart(s) && TokensOwned(s) && Possible(s, run) && CarefulRun(s, run)
    ensures Inv(After(s, run)) && Apart(After(s, run)) && TokensOwned(After(s, run))
    decreases |run|
  {
    hide Inv, Apart, TokensOwned, Next, Enabled, Careful;
    if run != [] {
      NextInv(s, run[0]);
      NextApart(s, run[0]);
      NextOwned(s, run[0]);
      RunApart(Next(s, run[0]), run[1..]);
    }
  }

  lemma InitialApart(slots: int)
    ensures Inv(Initial(slots)) && Apart(Initial(slots)) && TokensOwned(Initial(slots))
  {
    InitialInv(slots);
  }

  /** In every run whose admitted enqueues meet no clash, a cancellation reaches every item
      that is accepted and not completed. Attempts may come again once they are done with. */
  lemma CancelReaches(slots: int, run: seq<Step>)
    requires Possible(Initial(slots), run) && CarefulRun(Initial(slots), run)
    ensures Reached(After(Initial(slots), run))
  {
    InitialApart(slots);
    hide Initial, Apart, Balanced, Orderly;
    RunApart(Initial(slots), run);
    ApartIsReached(After(Initial(slots), run));
  }

  // ----- and when it does not -----

  /** Two items not completed with one attempt: one of them is out of reach. */
  lemma SharedIsUnreached(s: State, x: Work, y: Work)
    requires x != y && x.attempt == y.attempt
    requires s.accepted[x] > s.completed[x] && s.accepted[y] > s.completed[y]
    ensures !Reached(s)
  {
    hide Found;
    assert Found(s, x.attempt) != Some(x) || Found(s, y.attempt) != Some(y);
  }

  lemma Chain(s: State, e: Step, run: seq<Step>)
    requires Enabled(s, e) && Possible(Next(s, e), run)
    ensures Possible(s, [e] + run) && After(s, [e] + run) == After(Next(s, e), run)
  {
    hide Enabled, Next;
    assert ([e] + run)[1..] == run;
  }

  predicate NoEnqueue(run: seq<Step>) {
    forall e :: e in run ==> !e.Enqueue?
  }

  lemma {:induction false} NoEnqueueIsCareful(s: State, run: seq<Step>)
    requires Possible(s, run) && NoEnqueue(run)
    ensures CarefulRun(s, run)
    decreases |run|
  {
    hide Enabled, Next, Clashes;
    if run != [] {
      NoEnqueueIsCareful(Next(s, run[0]), run[1..]);
    }
  }

  /** Worker `i` has yet to remove the token of an attempt that the last queued item `w`
      shares; worker `j` is another. */
  ghost predicate Doomed(s: State, i: nat, j: nat, w: Work) {
    Balanced(s) && Poised(s, i, j, w)
  }

  ghost predicate Poised(s: State, i: nat, j: nat, w: Work) {
    && s.pushing == None && i < |s.workers| && j < |s.workers| && i != j
    && s.workers[i].Finished? && s.workers[i].work.attempt == w.attempt && s.workers[j] != Exited
    && s.queue != [] && s.queue[|s.queue| - 1] == w
  }

  lemma {:induction false} RunningCount(workers: seq<Worker>, i: nat, x: Work)
    requires i < |workers| && workers[i] == Running(x)
    ensures InHand(workers)[x] >= 1
    decreases |workers|
  {
    if i > 0 {
      RunningCount(workers[1..], i - 1, x);
    }
  }

  lemma TokenGone(s: State, i: nat, j: nat, w: Work)
    requires Poised(s, i, j, w) && s.workers[j] == Idle && |s.queue| == 1
    ensures Enabled(s, Take(j))
    ensures var s1 := Next(s, Take(j));
            && Enabled(s1, Forget(i)) && s1.queue == [] && s1.workers == s.workers[j := Running(w)]
  {
  }

  lemma LastTakenState(s: State, i: nat, j: nat, w: Work)
    requires Doomed(s, i, j, w) && s.workers[j] == Idle && |s.queue| == 1
    ensures Enabled(s, Take(j)) && Enabled(Next(s, Take(j)), Forget(i))
    ensures var s2 := Next(Next(s, Take(j)), Forget(i));
            Balanced(s2) && s2.workers[j] == Running(w) && s2.queue == [] && w.attempt !in s2.tokens
  {
    TokenGone(s, i, j, w);
    NextBalanced(s, Take(j));
    var s1 := Next(s, Take(j));
    assert s1.workers[i].work.attempt == w.attempt;
    hide Balanced;
    NextBalanced(s1, Forget(i));
  }

  /** The other worker takes the item, then the token goes. */
  lemma LastTaken(s: State, i: nat, j: nat, w: Work) returns (run: seq<Step>)
    requires Doomed(s, i, j, w) && s.workers[j] == Idle && |s.queue| == 1
    ensures Possible(s, run) && NoEnqueue(run) && !Reached(After(s, run))
  {
    LastTakenState(s, i, j, w);
    var s1 := Next(s, Take(j));
    var s2 := Next(s1, Forget(i));
    hide Doomed, Next, Enabled;
    RunningIsUncompleted(s2, j);
    assert Found(s2, w.attempt) == None;
    Chain(s1, Forget(i), []);
    Chain(s, Take(j), [Forget(i)] + []);
    run := [Take(j)] + ([Forget(i)] + []);
  }

  /** How far a worker is from being idle. */
  function Stage(w: Worker): nat {
    if w.Running? then 2 else if w.Finished? then 1 else 0
  }

  /** The step that brings the other worker nearer to taking the last item. */
  function Onward(s: State, j: nat): Step
    requires j < |s.workers|
  {
    if s.workers[j].Running? then Complete(j) else if s.workers[j].Finished? then Forget(j) else Take(j)
  }

  lemma TakenOn(s: State, i: nat, j: nat, w: Work)
    requires Poised(s, i, j, w) && s.workers[j] == Idle && |s.queue| > 1
    ensures Enabled(s, Take(j)) && Poised(Next(s, Take(j)), i, j, w) && |Next(s, Take(j)).queue| < |s.queue|
  {
    assert s.queue[1..][|s.queue| - 2] == w;
  }

  lemma CompletedOn(s: State, i: nat, j: nat, w: Work)
    requires Poised(s, i, j, w) && s.workers[j].Running?
    ensures Enabled(s, Complete(j)) && Poised(Next(s, Complete(j)), i, j, w)
    ensures Next(s, Complete(j)).queue == s.queue && Next(s, Complete(j)).workers[j].Finished?
  {
  }

  lemma ForgottenOn(s: State, i: nat, j: nat, w: Work)
    requires Poised(s, i, j, w) && s.workers[j].Finished?
    ensures Enabled(s, Forget(j)) && Poised(Next(s, Forget(j)), i, j, w)
    ensures Next(s, Forget(j)).queue == s.queue && Next(s, Forget(j)).workers[j] == Idle
  {
  }

  lemma DoomedOn(s: State, i: nat, j: nat, w: Work)
    requires Doomed(s, i, j, w) && (s.workers[j] == Idle ==> |s.queue| > 1)
    ensures Enabled(s, Onward(s, j))
    ensures var s1 := Next(s, Onward(s, j));
            && Doomed(s1, i, j, w) && |s1.queue| <= |s.queue|
            && (|s1.queue| < |s.queue| || Stage(s1.workers[j]) < Stage(s.workers[j]))
  {
    hide Balanced, Next, Enabled;
    if s.workers[j].Running? {
      CompletedOn(s, i, j, w);
    } else if s.workers[j].Finished? {
      ForgottenOn(s, i, j, w);
    } else {
      TakenOn(s, i, j, w);
    }
    NextBalanced(s, Onward(s, j));
  }

  lemma {:induction false} Missed(s: State, i: nat, j: nat, w: Work) returns (run: seq<Step>)
    requires Doomed(s, i, j, w)
    ensures Possible(s, run) && NoEnqueue(run) && !Reached(After(s, run))
    decreases |s.queue|, Stage(s.workers[j])
  {
    hide Reached, Balanced;
    if s.workers[j] == Idle && |s.queue| == 1 {
      run := LastTaken(s, i, j, w);
    } else {
      DoomedOn(s, i, j, w);
      hide Next, Enabled;
      var e := Onward(s, j);
      var rest := Missed(Next(s, e), i, j, w);
      Chain(s, e, rest);
      run := [e] + rest;
    }
  }

  /** After the push there are two items not completed with one attempt. */
  lemma SharedMisses(s: State, u: Work, w: Work) returns (run: seq<Step>)
    requires Balanced(s) && s.pushing == None && Admits(s) && w !in s.accepted
    requires s.accepted[u] > s.completed[u] && u.attempt == w.attempt
    ensures var s1 := Next(s, Enqueue(w));
            Possible(s1, run) && NoEnqueue(run) && !Reached(After(s1, run))
  {
    var s1 := Next(s, Enqueue(w));
    NewIsUncompleted(s, w);
    SharedIsUnreached(Next(s1, Push), u, w);
    hide Reached, Balanced;
    Chain(s1, Push, []);
    run := [Push] + [];
  }

  /** After the push the new item can be taken and then robbed of its token. */
  lemma TokenMisses(s: State, i: nat, w: Work) returns (run: seq<Step>)
    requires Inv(s) && s.pushing == None && Admits(s) && |s.workers| > 1
    requires i < |s.workers| && s.workers[i].Finished? && s.workers[i].work.attempt == w.attempt
    ensures var s1 := Next(s, Enqueue(w));
            Possible(s1, run) && NoEnqueue(run) && !Reached(After(s1, run))
  {
    var s1 := Next(s, Enqueue(w));
    var j := if i == 0 then 1 else 0;
    assert s.workers[j] != Exited;
    PushBalance(s1);
    hide Reached, Balanced;
    var rest := Missed(Next(s1, Push), i, j, w);
    Chain(s1, Push, rest);
    run := [Push] + rest;
  }

  /** What a clash met by an admitted enqueue leads to. */
  lemma ClashMisses(s: State, w: Work) returns (run: seq<Step>)
    requires Inv(s) && s.pushing == None && Admits(s) && w !in s.accepted && Clashes(s, w.attempt)
    ensures var s1 := Next(s, Enqueue(w));
            Possible(s1, run) && NoEnqueue(run) && !Reached(After(s1, run))
  {
    hide Reached, Balanced, Orderly, Next;
    if u :| u in s.queue && u.attempt == w.attempt {
      QueuedIsUncompleted(s, u);
      run := SharedMisses(s, u, w);
    } else {
      var i :| Blocks(s, i) && s.workers[i].work.attempt == w.attempt;
      if s.workers[i].Running? {
        RunningIsUncompleted(s, i);
        run := SharedMisses(s, s.workers[i].work, w);
      } else {
        run := TokenMisses(s, i, w);
      }
    }
  }

  lemma QueuedIsUncompleted(s: State, u: Work)
    requires Balanced(s) && u in s.queue
    ensures s.accepted[u] > s.completed[u]
  {
    assert u in multiset(s.queue);
    assert s.accepted[u] == (multiset(s.queue) + InHand(s.workers) + s.completed)[u];
  }

  lemma RunningIsUncompleted(s: State, i: nat)
    requires Balanced(s) && i < |s.workers| && s.workers[i].Running?
    ensures s.accepted[s.workers[i].work] > s.completed[s.workers[i].work]
  {
    var u := s.workers[i].work;
    RunningCount(s.workers, i, u);
    assert s.accepted[u] == (multiset(s.queue) + InHand(s.workers) + s.completed)[u];
  }

  lemma NewIsUncompleted(s: State, w: Work)
    requires Balanced(s) && w !in s.accepted
    ensures s.completed[w] == 0
  {
    assert s.accepted[w] == (multiset(s.queue) + InHand(s.workers) + s.completed)[w];
  }

  /** Whatever callers do with care from `s` on, cancellations reach everything. */
  ghost predicate Safe(s: State) {
    forall run :: Possible(s, run) && CarefulRun(s, run) ==> Reached(After(s, run))
  }

  /** An admitted enqueue of a new item is safe if and only if it meets no clash. */
  lemma EnqueueSafeIff(s: State, w: Work)
    requires Inv(s) && Apart(s) && TokensOwned(s) && s.pushing == None && Admits(s) && w !in s.accepted
    ensures Safe(Next(s, Enqueue(w))) <==> !Clashes(s, w.attempt)
  {
    var s1 := Next(s, Enqueue(w));
    if Clashes(s, w.attempt) {
      var run := ClashMisses(s, w);
      NoEnqueueIsCareful(s1, run);
    } else {
      NextInv(s, Enqueue(w));
      NextApart(s, Enqueue(w));
      NextOwned(s, Enqueue(w));
      hide Inv, Apart, TokensOwned, Next, Enabled, Reached, Clashes;
      forall run | Possible(s1, run) && CarefulRun(s1, run)
        ensures Reached(After(s1, run))
      {
        RunApart(s1, run);
        SoundIsReached(After(s1, run));
      }
    }
  }

  lemma SoundIsReached(s: State)
    requires Inv(s) && Apart(s)
    ensures Reached(s)
  {
    hide Apart, Balanced;
    ApartIsReached(s);
  }

  /** Whatever the number of slots, enqueueing one attempt twice can put an item out of
      reach. */
  lemma CancelCanMiss(slots: int, x: Work, y: Work) returns (run: seq<Step>)
    requires x.attempt == y.attempt && x != y
    ensures Possible(Initial(slots), run) && !Reached(After(Initial(slots), run))
  {
    var s := Initial(slots);
    var s1 := Next(s, Enqueue(x));
    var s2 := Next(s1, Push);
    InitialInv(slots);
    NextInv(s, Enqueue(x));
    NextInv(s1, Push);
    assert x in s2.queue && s2.accepted == multiset{x};
    hide Inv, Reached, Initial;
    var rest := ClashMisses(s2, y);
    Chain(s2, Enqueue(y), rest);
    Chain(s1, Push, [Enqueue(y)] + rest);
    Chain(s, Enqueue(x), [Push] + ([Enqueue(y)] + rest));
    run := [Enqueue(x)] + ([Push] + ([Enqueue(y)] + rest));
  }
}
