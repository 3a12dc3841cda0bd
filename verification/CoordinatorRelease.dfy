/**
 When a blocked task is released. A task is released exactly if it was submitted before
 the last of its dependencies succeeded.
 */
module CoordinatorRelease {
  import opened Basics
  import opened Types
  import opened Paths
  import opened TaskGraphs
  import opened CoordinatorCore
  import opened CoordinatorInvariants
  import opened CoordinatorSteps
  import opened CoordinatorRecovery
  import opened CoordinatorHistory
  import opened CoordinatorRuns
  import opened CoordinatorTheorems

  // ----- tasks that never leave Blocked -----

  predicate Idles(s: TaskState) {
    s == BLOCKED || s == CANCELLED || s == EXPIRED
  }

  /** `t` has not been released although all its dependencies have succeeded. */
  ghost predicate StuckIn(deps: Edges, states: map<Id, TaskState>, t: Id) {
    t in states && Idles(states[t]) && t in deps && forall d :: d in deps[t] ==> SucceededIn(states, d)
  }

  ghost predicate Stuck(c: Core, t: Id) {
    StuckIn(c.graph.deps, c.graph.states, t) && StuckIn(DepsOf(c.disk.tasks), c.disk.taskStates, t)
  }

  lemma StepKeepsStuck(c: Core, e: Event, t: Id)
    requires MemoryInv(c) && !e.step.DoRestart? && StuckIn(c.graph.deps, c.graph.states, t)
    ensures StuckIn(Next(c, e).graph.deps, Next(c, e).graph.states, t)
  {
    hide Next, MemoryInv, CommitTask, Carries, CommitAttempts, Evolves, CommitStates, StuckIn;
    NextHistory(c, e);
    if CommitTask(c, e).Some? {
      CommitKeepsStuck(c.graph, Next(c, e).graph, CommitTask(c, e).value, t);
    } else {
      QuietKeepsStuck(c.graph, Next(c, e).graph, t);
    }
  }

  lemma QuietKeepsStuck(g: Graph, g1: Graph, t: Id)
    requires Evolves(g, g1) && StuckIn(g.deps, g.states, t)
    ensures StuckIn(g1.deps, g1.states, t)
  {
    forall d | d in g.deps[t] ensures SucceededIn(g1.states, d) {
      assert SucceededIn(g.states, d);
    }
  }

  lemma CommitKeepsStuck(g: Graph, g1: Graph, u: Id, t: Id)
    requires g1.deps == g.deps && CommitStates(g.deps, g.states, g1.states, u) && StuckIn(g.deps, g.states, t)
    ensures StuckIn(g1.deps, g1.states, t)
  {
    forall d | d in g.deps[t] ensures SucceededIn(g1.states, d) {
      assert SucceededIn(g.states, d);
    }
  }

  /** It survives a restart exactly when the disk holds it. */
  lemma StuckSurvivesIff(c: Core, e: Event, t: Id)
    requires Inv(c) && Enabled(c, e) && e.step.DoRestart?
    ensures StuckIn(Next(c, e).graph.deps, Next(c, e).graph.states, t)
            <==> StuckIn(DepsOf(c.disk.tasks), c.disk.taskStates, t)
  {
    hide Next, MemoryInv, DurableInv, Enabled, DepsOf, Resettles;
    RestartResettles(c, e);
    StuckAlike(DepsOf(c.disk.tasks), c.disk.taskStates, Next(c, e).graph.states, t);
  }

  /** The states in which recovery leaves a task alone are neither entered nor left. */
  ghost predicate Resettles(s: map<Id, TaskState>, s1: map<Id, TaskState>) {
    s1.Keys == s.Keys && forall t :: t in s ==> s1[t] == s[t] || (Apart(s[t]) && Apart(s1[t]))
  }

  predicate Apart(s: TaskState) {
    s != SUCCEEDED && !Idles(s)
  }

  lemma RestartResettles(c: Core, e: Event)
    requires Inv(c) && Enabled(c, e) && e.step.DoRestart?
    ensures Next(c, e).graph.deps == DepsOf(c.disk.tasks) && Resettles(c.disk.taskStates, Next(c, e).graph.states)
  {
    hide Next, MemoryInv, DurableInv, Enabled, DepsOf, Resumes;
    RestartResumes(c, e);
    ResumesResettles(Next(c, e), c.disk);
  }

  lemma ResumesResettles(c: Core, d: DurableState)
    requires Resumes(c, d)
    ensures c.graph.deps == DepsOf(d.tasks) && Resettles(d.taskStates, c.graph.states)
  {
    hide DepsOf;
  }

  lemma StuckAlike(deps: Edges, s: map<Id, TaskState>, s1: map<Id, TaskState>, t: Id)
    requires Resettles(s, s1)
    ensures StuckIn(deps, s1, t) <==> StuckIn(deps, s, t)
  {
    assert forall d :: SucceededIn(s1, d) <==> SucceededIn(s, d);
  }

  /** Without a restart, memory alone decides, whatever saves fail. */
  lemma {:induction false} StuckUntilRestart(c: Core, run: seq<Event>, t: Id)
    requires Inv(c) && Possible(c, run) && Restarts(run) == 0 && StuckIn(c.graph.deps, c.graph.states, t)
    ensures StuckIn(After(c, run).graph.deps, After(c, run).graph.states, t)
    decreases |run|
  {
    hide MemoryInv, DurableInv, Next, StuckIn, Enabled;
    if run != [] {
      NextInv(c, run[0]);
      StepKeepsStuck(c, run[0], t);
      StuckUntilRestart(Next(c, run[0]), run[1..], t);
    }
  }

  lemma NextStuck(c: Core, e: Event, t: Id)
    requires Inv(c) && Enabled(c, e) && Stuck(c, t)
    ensures Stuck(Next(c, e), t)
  {
    hide Next, MemoryInv, DurableInv, Enabled, StuckIn, DepsOf, Inverse, Complete, Acyclic, AttemptsInv;
    NextThrough(c, e);
    NextInv(c, e);
    GraphIsSound(Next(c, e));
    WellFormedDeps(Next(c, e).graph);
    if e.step.DoRestart? {
      StuckSurvivesIff(c, e, t);
    } else {
      StepKeepsStuck(c, e, t);
    }
  }

  /** A blocked task whose dependencies have all succeeded never runs: in no run does it
      leave Blocked other than by cancellation or expiry. */
  lemma {:induction false} StuckForever(c: Core, run: seq<Event>, t: Id)
    requires Inv(c) && Possible(c, run) && Stuck(c, t)
    ensures Stuck(After(c, run), t)
    decreases |run|
  {
    hide Inv, Next, Stuck, Enabled;
    if run != [] {
      NextInv(c, run[0]);
      NextStuck(c, run[0], t);
      StuckForever(Next(c, run[0]), run[1..], t);
    }
  }

  // ----- tasks that are released -----

  /** `t` is left in Blocked although all its dependencies have succeeded. */
  ghost predicate Overlooked(deps: Edges, states: map<Id, TaskState>, t: Id) {
    t in states && states[t] == BLOCKED && t in deps && forall d :: d in deps[t] ==> SucceededIn(states, d)
  }

  /** The same, in memory or on disk. */
  ghost predicate Missed(c: Core, t: Id) {
    Overlooked(c.graph.deps, c.graph.states, t) || Overlooked(DepsOf(c.disk.tasks), c.disk.taskStates, t)
  }

  /** The event submits a task and it is taken in. */
  ghost predicate Admits(c: Core, e: Event) {
    && e.step.DoSubmit? && !e.step.stopping && e.step.task.id !in c.graph.tasks && e.step.task.id != ZERO_ID
    && forall d :: d in e.step.task.dependencies ==> d in c.graph.tasks
  }

  /** It waits for something, and all it waits for has already succeeded. */
  ghost predicate TooLate(states: map<Id, TaskState>, task: ComputeTask) {
    task.dependencies != [] && forall d :: d in task.dependencies ==> SucceededIn(states, d)
  }

  /** The event takes in `t` too late. */
  ghost predicate Late(c: Core, e: Event, t: Id) {
    Admits(c, e) && e.step.task.id == t && TooLate(c.graph.states, e.step.task)
  }

  lemma CalmOverlooksNone(g: Graph, g1: Graph, t: Id)
    requires WellFormed(g) && Stays(g, g1)
    ensures Overlooked(g1.deps, g1.states, t) ==> Overlooked(g.deps, g.states, t)
  {
    if Overlooked(g1.deps, g1.states, t) {
      assert Moves(g.states[t], g1.states[t]);
      forall d | d in g.deps[t] ensures SucceededIn(g.states, d) {
        assert SucceededIn(g1.states, d);
        assert Moves(g.states[d], g1.states[d]);
      }
    }
  }

  lemma EntryStates(g: Graph, task: ComputeTask)
    requires WellFormed(g) && task.id !in g.tasks
    ensures var g1 := SetState(Extended(g, task), task.id, InitialState(task));
            && g1.tasks == g.tasks[task.id := task] && g1.deps == g.deps[task.id := DepSet(task)]
            && g1.states == g.states[task.id := InitialState(task)]
  {
  }

  /** Taking in a task overlooks it exactly when it comes too late, and overlooks no
      other. */
  lemma EntryOverlooks(g: Graph, task: ComputeTask, t: Id)
    requires WellFormed(g) && task.id !in g.tasks
    requires forall d :: d in task.dependencies ==> d in g.tasks
    ensures var g1 := SetState(Extended(g, task), task.id, InitialState(task));
            Overlooked(g1.deps, g1.states, t) <==>
            if task.id == t then TooLate(g.states, task) else Overlooked(g.deps, g.states, t)
  {
    EntryStates(g, task);
    hide SetState, Extended;
    var g1 := SetState(Extended(g, task), task.id, InitialState(task));
    assert forall d :: SucceededIn(g1.states, d) <==> SucceededIn(g.states, d);
    if t == task.id {
      assert forall d :: d in g1.deps[t] <==> d in task.dependencies;
    } else if t in g.states {
      assert g1.deps[t] == g.deps[t];
    }
  }

  /** What a submission does to the graph. */
  lemma SubmissionGraph(c: Core, e: Event)
    requires MemoryInv(c) && e.step.DoSubmit?
    ensures WellFormed(c.graph)
    ensures Next(c, e).graph == if Admits(c, e)
                                then SetState(Extended(c.graph, e.step.task), e.step.task.id, InitialState(e.step.task))
                                else c.graph
  {
    GraphIsSound(c);
    var task := e.step.task;
    hide MemoryInv, AttemptsInv, Persist, Added, Extended, SetState, InitialState, WithWorkload;
    if Admits(c, e) {
      SubmissionAccepted(c.graph, task);
      var c1 := c.(graph := SetState(Extended(c.graph, task), task.id, InitialState(task)),
                   durable := WithWorkload(c.durable, e.step.workloadId, e.step.workloadName),
                   readyAt := c.readyAt[task.id := e.now]);
      PersistFrame(c1, e.saved);
    }
  }

  lemma SubmissionOverlooks(c: Core, e: Event, t: Id)
    requires MemoryInv(c) && e.step.DoSubmit? && !Overlooked(c.graph.deps, c.graph.states, t)
    ensures Overlooked(Next(c, e).graph.deps, Next(c, e).graph.states, t) <==> Late(c, e, t)
  {
    hide MemoryInv, Next, Overlooked, TooLate, Extended, SetState, InitialState;
    SubmissionGraph(c, e);
    if Admits(c, e) {
      EntryOverlooks(c.graph, e.step.task, t);
    }
  }

  lemma CommitOverlooksNone(g: Graph, g1: Graph, u: Id, t: Id)
    requires WellFormed(g) && g1.deps == g.deps && CommitStates(g.deps, g.states, g1.states, u)
    requires u in Succ(g.deps, t) && g.states[u] == RUNNING ==> !(StateOf(g1, t) == BLOCKED && Satisfied(g1, t))
    ensures Overlooked(g1.deps, g1.states, t) ==> Overlooked(g.deps, g.states, t)
  {
    if Overlooked(g1.deps, g1.states, t) {
      assert forall d :: d in Succ(g1.deps, t) ==> SucceededIn(g1.states, d);
      assert Satisfied(g1, t);
      forall d | d in g.deps[t] ensures SucceededIn(g.states, d) {
        assert SucceededIn(g1.states, d);
      }
    }
  }

  lemma CommitReleases(c: Core, e: Event, t: Id)
    requires MemoryInv(c) && CommitTask(c, e).Some?
    requires CommitTask(c, e).value in Succ(c.graph.deps, t) && TaskStateOf(c, CommitTask(c, e).value) == RUNNING
    ensures !(StateOf(Next(c, e).graph, t) == BLOCKED && Satisfied(Next(c, e).graph, t))
  {
    hide MemoryInv, Commits, CompleteAttempt, Satisfied;
    CommitReleasesDependents(c, e.step.a, e.step.reservation, e.step.out, e.now, e.saved, t);
  }

  /** An event other than a restart overlooks a task exactly when it takes it in late. */
  lemma StepOverlooks(c: Core, e: Event, t: Id)
    requires MemoryInv(c) && !e.step.DoRestart? && !Overlooked(c.graph.deps, c.graph.states, t)
    ensures Overlooked(Next(c, e).graph.deps, Next(c, e).graph.states, t) <==> Late(c, e, t)
  {
    if e.step.DoSubmit? {
      hide MemoryInv, Overlooked, Next, Late;
      SubmissionOverlooks(c, e, t);
    } else {
      GraphIsSound(c);
      WellFormedFirst(c.graph);
      NextHistory(c, e);
      var u := CommitTask(c, e);
      if u.Some? && u.value in Succ(c.graph.deps, t) && TaskStateOf(c, u.value) == RUNNING {
        CommitReleases(c, e, t);
      }
      hide MemoryInv, GraphInv, AttemptsInv, Overlooked, Next, CommitTask, Stays, CommitStates, CommitAttempts, Carries,
        Satisfied;
      if u.Some? {
        CommitOverlooksNone(c.graph, Next(c, e).graph, u.value, t);
      } else {
        CalmOverlooksNone(c.graph, Next(c, e).graph, t);
      }
    }
  }

  lemma RestartOverlooks(c: Core, e: Event, t: Id)
    requires Inv(c) && Enabled(c, e) && e.step.DoRestart?
    ensures Overlooked(Next(c, e).graph.deps, Next(c, e).graph.states, t)
            <==> Overlooked(DepsOf(c.disk.tasks), c.disk.taskStates, t)
  {
    hide MemoryInv, DurableInv, Next, Enabled, DepsOf, Resettles;
    RestartResettles(c, e);
    OverlookedAlike(DepsOf(c.disk.tasks), c.disk.taskStates, Next(c, e).graph.states, t);
  }

  lemma OverlookedAlike(deps: Edges, s: map<Id, TaskState>, s1: map<Id, TaskState>, t: Id)
    requires Resettles(s, s1)
    ensures Overlooked(deps, s1, t) <==> Overlooked(deps, s, t)
  {
    assert forall d :: SucceededIn(s1, d) <==> SucceededIn(s, d);
  }

  lemma DiskOverlooks(c: Core, t: Id)
    requires MemoryInv(c) && Synced(c)
    ensures Overlooked(DepsOf(c.disk.tasks), c.disk.taskStates, t) <==> Overlooked(c.graph.deps, c.graph.states, t)
  {
    hide MemoryInv, GraphInv, AttemptsInv, DepsOf, Overlooked;
    GraphIsSound(c);
    WellFormedFirst(c.graph);
    WellFormedDeps(c.graph);
  }

  /** Every event, a restart or one whose save is lost included, leaves a task overlooked in
      memory or on disk if and only if it takes that task in late. */
  lemma MissedIff(c: Core, e: Event, t: Id)
    requires Inv(c) && Enabled(c, e) && !Missed(c, t)
    ensures Missed(Next(c, e), t) <==> Late(c, e, t)
  {
    hide MemoryInv, DurableInv, Next, Enabled, Overlooked, DepsOf, Late;
    NextThrough(c, e);
    NextInv(c, e);
    if e.step.DoRestart? {
      RestartOverlooks(c, e, t);
      NotLate(c, e, t);
    } else {
      StepOverlooks(c, e, t);
    }
    if Synced(Next(c, e)) {
      hide Synced;
      DiskOverlooks(Next(c, e), t);
    }
  }

  lemma NotLate(c: Core, e: Event, t: Id)
    requires !e.step.DoSubmit?
    ensures !Late(c, e, t)
  {
  }

  ghost predicate EverLate(c: Core, run: seq<Event>, t: Id)
    decreases |run|
  {
    run != [] && (Late(c, run[0], t) || EverLate(Next(c, run[0]), run[1..], t))
  }

  /** A task that no event of the run takes in late is overlooked at no point of it. */
  lemma {:induction false} TimelyIsNeverMissed(c: Core, run: seq<Event>, t: Id)
    requires Inv(c) && Possible(c, run) && !Missed(c, t) && !EverLate(c, run, t)
    ensures !Missed(After(c, run), t)
    decreases |run|
  {
    hide Inv, Next, Enabled, Missed, Late;
    if run != [] {
      NextInv(c, run[0]);
      MissedIff(c, run[0], t);
      TimelyIsNeverMissed(Next(c, run[0]), run[1..], t);
    }
  }

  // ----- what becomes of one submission -----

  /** Known in memory and on disk. */
  ghost predicate Recorded(c: Core, t: Id) {
    t in c.graph.tasks && t in c.disk.tasks
  }

  lemma NextRecorded(c: Core, e: Event, t: Id)
    requires Inv(c) && Enabled(c, e) && Recorded(c, t)
    ensures Recorded(Next(c, e), t)
  {
    NextThrough(c, e);
    NextInv(c, e);
    GraphIsSound(c);
    GraphIsSound(Next(c, e));
    if e.step.DoRestart? {
      RestartResumes(c, e);
    } else {
      NextHistory(c, e);
    }
    hide MemoryInv, DurableInv, Next, Enabled, Inverse, Complete, Acyclic, AttemptsInv, CommitTask, Carries, CommitAttempts;
  }

  lemma {:induction false} RecordedIsNeverLate(c: Core, run: seq<Event>, t: Id)
    requires Inv(c) && Possible(c, run) && Recorded(c, t)
    ensures !EverLate(c, run, t)
    decreases |run|
  {
    hide Inv, Next, Enabled;
    if run != [] {
      NextInv(c, run[0]);
      NextRecorded(c, run[0], t);
      RecordedIsNeverLate(Next(c, run[0]), run[1..], t);
    }
  }

  /** A saved submission is recorded, and overlooked exactly when it was too late. */
  lemma SubmissionSaved(c: Core, e: Event)
    requires Inv(c) && Admits(c, e) && e.saved
    ensures Recorded(Next(c, e), e.step.task.id)
    ensures Missed(Next(c, e), e.step.task.id) <==> TooLate(c.graph.states, e.step.task)
    ensures TooLate(c.graph.states, e.step.task) ==> Stuck(Next(c, e), e.step.task.id)
  {
    var t, c1 := e.step.task.id, Next(c, e);
    SubmissionGraph(c, e);
    EntryStates(c.graph, e.step.task);
    EntryOverlooks(c.graph, e.step.task, t);
    NextInv(c, e);
    SubmissionSynced(c, e);
    hide MemoryInv, DurableInv, Next, Overlooked, DepsOf, Extended, SetState, InitialState, TooLate, StuckIn, Admits;
    DiskOverlooks(c1, t);
    OverlookedIsStuck(c1.graph.deps, c1.graph.states, t);
    OverlookedIsStuck(DepsOf(c1.disk.tasks), c1.disk.taskStates, t);
  }

  lemma OverlookedIsStuck(deps: Edges, states: map<Id, TaskState>, t: Id)
    ensures Overlooked(deps, states, t) ==> StuckIn(deps, states, t)
  {
  }

  lemma SubmissionSynced(c: Core, e: Event)
    requires MemoryInv(c) && Admits(c, e) && e.saved
    ensures Synced(Next(c, e))
  {
    GraphIsSound(c);
    var task := e.step.task;
    hide MemoryInv, AttemptsInv, Persist, Added, Extended, SetState, InitialState, WithWorkload, Synced;
    SubmissionAccepted(c.graph, task);
    var c1 := c.(graph := SetState(Extended(c.graph, task), task.id, InitialState(task)),
                 durable := WithWorkload(c.durable, e.step.workloadId, e.step.workloadName),
                 readyAt := c.readyAt[task.id := e.now]);
    PersistFrame(c1, e.saved);
  }

  /** What becomes of a saved submission in any run that follows. If some dependency had
      still to succeed, the task is never left blocked once all have. If none had, it never
      leaves Blocked other than by cancellation or expiry. */
  lemma SubmissionFate(c: Core, e: Event, run: seq<Event>)
    requires Inv(c) && Admits(c, e) && e.saved && Possible(Next(c, e), run)
    ensures if TooLate(c.graph.states, e.step.task) then Stuck(After(Next(c, e), run), e.step.task.id)
            else !Missed(After(Next(c, e), run), e.step.task.id)
  {
    var t, c1 := e.step.task.id, Next(c, e);
    SubmissionSaved(c, e);
    NextInv(c, e);
    hide Inv, Next, Missed, Stuck, Admits, TooLate, Enabled, Recorded;
    if TooLate(c.graph.states, e.step.task) {
      StuckForever(c1, run, t);
    } else {
      RecordedIsNeverLate(c1, run, t);
      TimelyIsNeverMissed(c1, run, t);
    }
  }

  /** Some run leads to `t` being overlooked. */
  ghost predicate CanBeMissed(c: Core, t: Id) {
    exists run :: Possible(c, run) && Missed(After(c, run), t)
  }

  lemma MissedAlready(c: Core, t: Id)
    requires Missed(c, t)
    ensures CanBeMissed(c, t)
  {
    hide Missed, Next;
    var none: seq<Event> := [];
    assert Possible(c, none) && After(c, none) == c;
  }

  /** A saved submission can end up overlooked if and only if it comes too late. */
  lemma ReleasedIff(c: Core, e: Event)
    requires Inv(c) && Admits(c, e) && e.saved
    ensures CanBeMissed(Next(c, e), e.step.task.id) <==> TooLate(c.graph.states, e.step.task)
  {
    var t, c1 := e.step.task.id, Next(c, e);
    SubmissionSaved(c, e);
    hide Inv, Next, Missed, Stuck, Admits, TooLate, Enabled, Possible, After;
    if TooLate(c.graph.states, e.step.task) {
      MissedAlready(c1, t);
    } else {
      forall run | Possible(c1, run)
        ensures !Missed(After(c1, run), t)
      {
        SubmissionFate(c, e, run);
      }
    }
  }
}
