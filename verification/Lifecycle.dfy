/**
 The legal-transition relation of a task and the object that walks it.
 */
module Lifecycle {
  import opened Basics
  import opened Types

  predicate IsTerminal(s: TaskState) {
    s == SUCCEEDED || s == FAILED || s == CANCELLED || s == LOST || s == PREEMPTED || s == EXPIRED
  }

  /** States that imply outstanding execution authority. */
  predicate IsActive(s: TaskState) {
    s == PLANNING || s == RESERVED || s == DISPATCHING || s == RUNNING
  }

  predicate IsLegal(from: TaskState, to: TaskState) {
    if from == to then true
    else if from == SUBMITTED then
      to == BLOCKED || to == READY || to == CANCELLED || to == EXPIRED
    else if from == BLOCKED then
      to == READY || to == CANCELLED || to == EXPIRED
    else if from == READY then
      to == PLANNING || to == CANCELLED || to == EXPIRED
    else if from == PLANNING then
      to == RESERVED || to == READY || to == CANCELLED || to == LOST || to == EXPIRED
    else if from == RESERVED then
      to == DISPATCHING || to == READY || to == CANCELLED || to == LOST || to == PREEMPTED || to == EXPIRED
    else if from == DISPATCHING then
      to == RUNNING || to == READY || to == LOST || to == CANCELLED || to == PREEMPTED || to == EXPIRED
    else if from == RUNNING then
      to == SUCCEEDED || to == FAILED || to == LOST || to == PREEMPTED || to == RETRY_PENDING
      || to == CANCELLED || to == EXPIRED
    else if from == FAILED then
      to == RETRY_PENDING
    else if from == LOST then
      to == RETRY_PENDING || to == FAILED
    else if from == PREEMPTED then
      to == RETRY_PENDING || to == READY || to == FAILED
    else if from == RETRY_PENDING then
      to == READY || to == CANCELLED || to == EXPIRED
    else
      false
  }

  /** A sequence of states, each legally following the one before. */
  ghost predicate IsHistory(h: seq<TaskState>) {
    |h| > 0 && forall i :: 0 <= i < |h| - 1 ==> IsLegal(h[i], h[i + 1])
  }

  class TaskLifecycle {
    var state: TaskState
    ghost var history: seq<TaskState>

    ghost predicate Valid() reads this {
      IsHistory(history) && history[0] == SUBMITTED && history[|history| - 1] == state
    }

    constructor ()
      ensures Valid() && state == SUBMITTED && history == [SUBMITTED]
    {
      state := SUBMITTED;
      history := [SUBMITTED];
    }

    method Transition(next: TaskState) returns (r: Result<TaskState>)
      requires Valid()
      modifies this
      ensures Valid()
      ensures IsLegal(old(state), next) ==> r == Ok(next) && state == next
      ensures !IsLegal(old(state), next) ==> r == Err(IllegalTransition) && state == old(state)
      ensures history == if state == old(state) then old(history) else old(history) + [next]
    {
      if state == next {
        return Ok(state);
      }
      if !IsLegal(state, next) {
        return Err(IllegalTransition);
      }
      state := next;
      history := history + [next];
      return Ok(state);
    }
  }

  /** Succeeded, Cancelled and Expired are never left, however long the history. */
  lemma {:induction false} FinalStatesAreAbsorbing(h: seq<TaskState>, i: nat, j: nat)
    requires IsHistory(h) && i <= j < |h|
    requires h[i] == SUCCEEDED || h[i] == CANCELLED || h[i] == EXPIRED
    ensures h[j] == h[i]
    decreases j
  {
    if i < j {
      FinalStatesAreAbsorbing(h, i, j - 1);
      assert IsLegal(h[j - 1], h[j - 1 + 1]);
    }
  }

  /** The only way into Succeeded is a step out of Running, which itself was only
      entered from Dispatching: a history that starts elsewhere and reaches
      Succeeded passed through Dispatching then Running. */
  lemma {:induction false} SuccessRanAfterDispatch(h: seq<TaskState>, j: nat)
    requires IsHistory(h) && j < |h|
    requires h[0] == SUBMITTED && h[j] == SUCCEEDED
    ensures exists d, r :: 0 <= d < r < j && h[d] == DISPATCHING && h[r] == RUNNING
  {
    var k := FirstEntry(h, j);
    assert IsLegal(h[k - 1], h[k - 1 + 1]);
    var m := FirstEntry(h, k - 1);
    assert IsLegal(h[m - 1], h[m - 1 + 1]);
    assert h[m - 1] == DISPATCHING && h[k - 1] == RUNNING;
  }

  /** Where the stay in `h[j]` that includes `j` began. */
  lemma {:induction false} FirstEntry(h: seq<TaskState>, j: nat) returns (k: nat)
    requires IsHistory(h) && j < |h| && h[j] != h[0]
    ensures 0 < k <= j && h[k] == h[j] && h[k - 1] != h[j]
    decreases j
  {
    if h[j - 1] == h[j] {
      k := FirstEntry(h, j - 1);
    } else {
      k := j;
    }
  }

  /** The states a state is entered from. */
  function Sources(to: TaskState): set<TaskState> {
    if to == BLOCKED then {SUBMITTED}
    else if to == READY then {SUBMITTED, BLOCKED, PLANNING, RESERVED, DISPATCHING, PREEMPTED, RETRY_PENDING}
    else if to == PLANNING then {READY}
    else if to == RESERVED then {PLANNING}
    else if to == DISPATCHING then {RESERVED}
    else if to == RUNNING then {DISPATCHING}
    else if to == SUCCEEDED then {RUNNING}
    else if to == FAILED then {RUNNING, LOST, PREEMPTED}
    else if to == RETRY_PENDING then {RUNNING, FAILED, LOST, PREEMPTED}
    else if to == LOST then {PLANNING, RESERVED, DISPATCHING, RUNNING}
    else if to == PREEMPTED then {RESERVED, DISPATCHING, RUNNING}
    else if to == CANCELLED || to == EXPIRED then
      {SUBMITTED, BLOCKED, READY, PLANNING, RESERVED, DISPATCHING, RUNNING, RETRY_PENDING}
    else {}
  }

  /** The table read the other way round: by the state entered. So only an active task is lost,
      every task that is not over can be cancelled or expire, and nothing returns to Submitted. */
  lemma WaysIn(from: TaskState, to: TaskState)
    ensures IsLegal(from, to) <==> from == to || from in Sources(to)
    ensures IsLegal(from, LOST) <==> from == LOST || IsActive(from)
    ensures from <= EXPIRED ==> (IsLegal(from, CANCELLED) <==> from == CANCELLED || !IsTerminal(from))
    ensures from <= EXPIRED ==> (IsLegal(from, EXPIRED) <==> from == EXPIRED || !IsTerminal(from))
  {
  }
}
