/**
 More about the CPU executor: items are taken in the order they were accepted, a shutdown
 that does not drain cancels all that wait, and a shutdown under way is never stuck.
 */
module ExecutorOrder {
  import opened Basics
  import opened CpuExecutor

  // ----- first come, first served -----

  /** The item a step accepts, if it accepts one. */
  ghost function Pushes(s: State, e: Step): seq<Work>
    requires Enabled(s, e)
  {
    if e.Push? then [s.pushing.value] else []
  }

  /** The item a worker has in hand by a step, if it takes one. */
  ghost function Takes(s: State, e: Step): seq<Work>
    requires Enabled(s, e)
  {
    if e.Take? && Next(s, e).workers[e.i].Running? then [Next(s, e).workers[e.i].work] else []
  }

  /** The items a run accepts, in order. */
  ghost function Pushed(s: State, run: seq<Step>): seq<Work>
    requires Possible(s, run)
    decreases |run|
  {
    if run == [] then [] else Pushes(s, run[0]) + Pushed(Next(s, run[0]), run[1..])
  }

  /** The items the workers take, in order. */
  ghost function Taken(s: State, run: seq<Step>): seq<Work>
    requires Possible(s, run)
    decreases |run|
  {
    if run == [] then [] else Takes(s, run[0]) + Taken(Next(s, run[0]), run[1..])
  }

  lemma StepInOrder(s: State, e: Step)
    requires Enabled(s, e)
    ensures s.queue + Pushes(s, e) == Takes(s, e) + Next(s, e).queue
  {
    hide Found;
    if e.Take? {
      assert s.queue == [s.queue[0]] + s.queue[1..];
    }
  }

  lemma Along(q: seq<Work>, p: seq<Work>, ps: seq<Work>, t: seq<Work>, q1: seq<Work>, ts: seq<Work>, q2: seq<Work>)
    requires q + p == t + q1 && q1 + ps == ts + q2
    ensures q + (p + ps) == (t + ts) + q2
  {
    assert q + (p + ps) == (q + p) + ps;
    assert (t + q1) + ps == t + (q1 + ps);
    assert t + (ts + q2) == (t + ts) + q2;
  }

  /** What waits at the start and what a run accepts is, in this order, what the workers take and
      what waits at the end: items are taken in the order they were accepted. */
  lemma {:induction false} InOrder(s: State, run: seq<Step>)
    requires Possible(s, run)
    ensures s.queue + Pushed(s, run) == Taken(s, run) + After(s, run).queue
    decreases |run|
  {
    hide Next, Enabled, Pushes, Takes;
    if run == [] {
      assert s.queue + [] == [] + s.queue;
    } else {
      var s1 := Next(s, run[0]);
      StepInOrder(s, run[0]);
      InOrder(s1, run[1..]);
      Along(s.queue, Pushes(s, run[0]), Pushed(s1, run[1..]), Takes(s, run[0]), s1.queue, Taken(s1, run[1..]),
            After(s, run).queue);
    }
  }

  /** So the items taken so far are always the first ones accepted. */
  lemma TakenIsPrefix(slots: int, run: seq<Step>)
    requires Possible(Initial(slots), run)
    ensures Taken(Initial(slots), run) <= Pushed(Initial(slots), run)
  {
    InOrder(Initial(slots), run);
    assert Initial(slots).queue + Pushed(Initial(slots), run) == Pushed(Initial(slots), run);
  }

  // ----- a shutdown that does not drain -----

  /** Nothing that waits is still to be run: it is cancelled, and nothing will join it. */
  ghost predicate Abandoned(s: State) {
    s.stopping && s.pushing == None && forall w :: w in s.queue ==> w in s.cancelled
  }

  /** A shutdown cancels what waits if it does not drain, and nothing otherwise; what runs is
      left to run. */
  lemma ShutdownCancels(s: State)
    requires Enabled(s, RequestAll)
    ensures var s1 := Next(s, RequestAll);
            && (forall w :: w in s1.cancelled <==> w in s.cancelled || (!s.closer.drain && w in s.queue))
            && s1.queue == s.queue && s1.workers == s.workers && s1.closer == Joining
    ensures s.stopping && !s.closer.drain ==> Abandoned(Next(s, RequestAll))
  {
  }

  /** And it stays that way: every item a worker takes from then on was cancelled. */
  lemma {:induction false} AbandonedStays(s: State, run: seq<Step>)
    requires Abandoned(s) && Possible(s, run)
    ensures Abandoned(After(s, run)) && forall w :: w in Taken(s, run) ==> w in After(s, run).cancelled
    ensures s.cancelled <= After(s, run).cancelled
    decreases |run|
  {
    hide Next, Enabled, Takes;
    if run != [] {
      AbandonedStep(s, run[0]);
      AbandonedStays(Next(s, run[0]), run[1..]);
    }
  }

  lemma AbandonedStep(s: State, e: Step)
    requires Abandoned(s) && Enabled(s, e)
    ensures Abandoned(Next(s, e)) && s.cancelled <= Next(s, e).cancelled
    ensures forall w :: w in Takes(s, e) ==> w in Next(s, e).cancelled
  {
    hide Found;
    if e.Take? {
      assert s.queue[0] in s.queue;
      assert forall w :: w in s.queue[1..] ==> w in s.queue;
    }
  }

  // ----- no deadlock -----

  /** The steps by which the workers, an enqueue and the closing thread get on. */
  ghost predicate GetsOn(s: State) {
    || Enabled(s, Push) || Enabled(s, RequestAll) || Enabled(s, Return)
    || exists i :: Enabled(s, Take(i)) || Enabled(s, Complete(i)) || Enabled(s, Forget(i)) || Enabled(s, Exit(i))
  }

  /** While a shutdown is under way something can always happen, without any new call, until it
      has returned. */
  lemma NeverStuck(s: State)
    requires Inv(s) && (s.closer.FlagSet? || s.closer == Joining)
    ensures GetsOn(s)
  {
    hide Balanced;
    if s.pushing.Some? {
      assert Enabled(s, Push);
    } else if s.closer.FlagSet? {
      assert Enabled(s, RequestAll);
    } else if i :| 0 <= i < |s.workers| && s.workers[i] != Exited {
      match s.workers[i] {
        case Idle =>
          assert s.stopping;
          assert Enabled(s, Take(i)) || Enabled(s, Exit(i));
        case Running(_) => assert Enabled(s, Complete(i));
        case Finished(_) => assert Enabled(s, Forget(i));
      }
    } else {
      assert Enabled(s, Return);
    }
  }

  // ----- admission -----

  /** An enqueue is accepted, at the end of the queue, exactly when the executor is not stopping and
      fewer than 1024 items wait; otherwise it changes nothing. */
  lemma EnqueueAccepts(s: State, w: Work)
    requires Enabled(s, Enqueue(w))
    ensures var s1 := Next(s, Enqueue(w));
            if s.stopping || |s.queue| >= 1024 then s1 == s else
            && Enabled(s1, Push) && Next(s1, Push).queue == s.queue + [w]
            && Next(s1, Push).accepted == s.accepted + multiset{w}
            && Next(s1, Push) == s.(queue := s.queue + [w], accepted := s.accepted + multiset{w})
  {
  }
}
