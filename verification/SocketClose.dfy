/**
 Closing a socket: operations that borrow the native handle and threads that close it,
 interleaved in every way the mutex allows. Each critical section is one step; the
 native shutdown between the two sections of a close is a step of its own.
 */
module SocketClose {

  datatype Closer = Outside | Waiting | Claimed(unblock: bool) | Draining | Done

  /** What the threads share, where each is, and what was done to the native handle. */
  datatype State = State(
    open: bool,              // the stored handle is valid
    closing: bool,
    activeOperations: int,
    holders: set<nat>,       // operations between their constructor and destructor
    closers: map<nat, Closer>,
    nativeCloses: nat,
    begun: bool)             // some close has passed its first section

  datatype Step =
    | Acquire(op: nat)
    | Release(op: nat)
    | Claim(t: nat, unblock: bool)
    | Shutdown(t: nat)
    | Close(t: nat)
    | Wake(t: nat)

  function At(s: State, t: nat): Closer {
    if t in s.closers then s.closers[t] else Outside
  }

  predicate Enabled(s: State, e: Step) {
    match e
    case Acquire(op) => op !in s.holders
    case Release(op) => op in s.holders
    case Claim(t, _) => At(s, t) == Outside || At(s, t) == Done
    case Shutdown(t) => At(s, t).Claimed?
    case Close(t) => At(s, t) == Draining && s.activeOperations == 0
    case Wake(t) => At(s, t) == Waiting && !s.open
  }

  /** Whether an operation constructed now gets the handle. */
  predicate Acquires(s: State) {
    !s.closing && s.open
  }

  function Next(s: State, e: Step): State {
    match e
    case Acquire(op) =>
      if Acquires(s) then s.(activeOperations := s.activeOperations + 1, holders := s.holders + {op}) else s
    case Release(op) => s.(activeOperations := s.activeOperations - 1, holders := s.holders - {op})
    case Claim(t, unblock) =>
      if !s.open then s.(closers := s.closers[t := Done])
      else if s.closing then s.(closers := s.closers[t := Waiting])
      else s.(closing := true, begun := true, closers := s.closers[t := Claimed(unblock)])
    case Shutdown(t) => s.(closers := s.closers[t := Draining])
    case Close(t) =>
      s.(open := false, closing := false, nativeCloses := s.nativeCloses + 1, closers := s.closers[t := Done])
    case Wake(t) => s.(closers := s.closers[t := Done])
  }

  const INITIAL: State := State(true, false, 0, {}, map[], 0, false)

  predicate Busy(c: Closer) {
    c.Claimed? || c == Draining
  }

  /** The count is the number of holders; exactly while a close is between its sections, the
      flag is set, the handle is open and that thread is the only one; the handle is closed
      once it is no longer open and not before. */
  ghost predicate Inv(s: State) {
    && s.activeOperations == |s.holders|
    && s.nativeCloses == (if s.open then 0 else 1)
    && (s.closing ==> s.open && s.begun)
    && (!s.open ==> s.begun && s.holders == {})
    && (s.begun ==> s.closing || !s.open)
    && (forall t :: Busy(At(s, t)) ==> s.closing)
    && (forall t, u :: Busy(At(s, t)) && Busy(At(s, u)) ==> t == u)
    && (s.closing ==> exists t :: Busy(At(s, t)))
    && (forall t :: At(s, t) == Waiting ==> s.begun)
  }

  ghost predicate Possible(s: State, run: seq<Step>)
    decreases |run|
  {
    run == [] || (Enabled(s, run[0]) && Possible(Next(s, run[0]), run[1..]))
  }

  function After(s: State, run: seq<Step>): State
    decreases |run|
  {
    if run == [] then s else After(Next(s, run[0]), run[1..])
  }

  lemma OperationInv(s: State, e: Step)
    requires Inv(s) && Enabled(s, e) && (e.Acquire? || e.Release?)
    ensures Inv(Next(s, e))
  {
    assert forall t :: At(Next(s, e), t) == At(s, t);
    hide At;
  }

  lemma CloserInv(s: State, e: Step)
    requires Inv(s) && Enabled(s, e) && !e.Acquire? && !e.Release?
    ensures Inv(Next(s, e))
  {
    assert forall t :: t != e.t ==> At(Next(s, e), t) == At(s, t);
    assert At(Next(s, e), e.t) == Next(s, e).closers[e.t];
    if Next(s, e).closing {
      if s.closing {
        var t :| Busy(At(s, t));
        assert Busy(At(Next(s, e), t));
      } else {
        assert Busy(At(Next(s, e), e.t));
      }
    }
    hide At;
  }

  lemma NextInv(s: State, e: Step)
    requires Inv(s) && Enabled(s, e)
    ensures Inv(Next(s, e))
  {
    hide Inv, Next, Enabled;
    if e.Acquire? || e.Release? {
      OperationInv(s, e);
    } else {
      CloserInv(s, e);
    }
  }

  lemma {:induction false} RunInv(s: State, run: seq<Step>)
    requires Inv(s) && Possible(s, run)
    ensures Inv(After(s, run))
    decreases |run|
  {
    hide Inv, Next, Enabled;
    if run != [] {
      NextInv(s, run[0]);
      RunInv(Next(s, run[0]), run[1..]);
    }
  }

  /** In every run the native handle is closed at most once, only when no operation holds it,
      and the native shutdown is only ever called on an open handle. */
  lemma ClosedOnceAndUnused(run: seq<Step>, e: Step)
    requires Possible(INITIAL, run + [e])
    ensures var s := After(INITIAL, run);
            && s.nativeCloses <= 1
            && (e.Close? ==> s.nativeCloses == 0 && s.holders == {})
            && (e.Shutdown? ==> s.open && s.nativeCloses == 0)
            && (e.Release? ==> s.open)
  {
    PossibleSnoc(INITIAL, run, e);
    RunInv(INITIAL, run);
    var s := After(INITIAL, run);
    hide After, Possible;
    if e.Close? || e.Shutdown? {
      assert Busy(At(s, e.t));
    }
  }

  lemma {:induction false} PossibleSnoc(s: State, run: seq<Step>, e: Step)
    requires Possible(s, run + [e])
    ensures Possible(s, run) && Enabled(After(s, run), e)
    decreases |run|
  {
    hide Next, Enabled;
    if run != [] {
      assert (run + [e])[1..] == run[1..] + [e];
      PossibleSnoc(Next(s, run[0]), run[1..], e);
    } else {
      assert run + [e] == [e];
    }
  }

  /** Once a close has begun, no operation ever gets the handle again. */
  lemma {:induction false} NoneAfterClosing(s: State, run: seq<Step>)
    requires Inv(s) && s.begun && Possible(s, run)
    ensures !Acquires(After(s, run)) && After(s, run).begun && After(s, run).holders <= s.holders
    decreases |run|
  {
    if run != [] {
      var s1 := Next(s, run[0]);
      assert s1.begun && s1.holders <= s.holders;
      NextInv(s, run[0]);
      hide Inv, Next, Enabled;
      NoneAfterClosing(s1, run[1..]);
    }
  }

  /** Where a closing thread is on its way. */
  predicate Unfinished(c: Closer) {
    c == Waiting || c.Claimed? || c == Draining
  }

  /** While a thread is closing, some step that needs no new call can be taken: an operation ends,
      or a closing thread goes on. So neither the thread that closes nor one that waits for it is
      ever stuck, as long as operations end. */
  lemma NeverStuck(run: seq<Step>, t: nat)
    requires Possible(INITIAL, run) && Unfinished(At(After(INITIAL, run), t))
    ensures var s := After(INITIAL, run);
            || (exists op :: Enabled(s, Release(op)))
            || (exists u :: Enabled(s, Shutdown(u)) || Enabled(s, Close(u)) || Enabled(s, Wake(u)))
  {
    RunInv(INITIAL, run);
    var s := After(INITIAL, run);
    hide After, Possible;
    if At(s, t) == Waiting && !s.open {
      assert Enabled(s, Wake(t));
    } else {
      var u :| Busy(At(s, u));
      if At(s, u).Claimed? {
        assert Enabled(s, Shutdown(u));
      } else if s.holders == {} {
        assert Enabled(s, Close(u));
      } else {
        var op :| op in s.holders;
        assert Enabled(s, Release(op));
      }
    }
  }

  /** And a close leaves nothing to wait for: every thread that waits can go on. */
  lemma CloseWakes(s: State, t: nat, u: nat)
    requires Inv(s) && Enabled(s, Close(t)) && At(s, u) == Waiting
    ensures Enabled(Next(s, Close(t)), Wake(u))
  {
  }
}
