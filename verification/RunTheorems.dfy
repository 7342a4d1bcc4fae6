/** Safety of whole runs: statements about every sequence of transactions of an unstarted run. */
module RunTheorems {
  import opened Wrappers
  import opened TaskGraph
  import opened RunModel
  import opened RunSafety
  import opened RunInvariant

  lemma CompletedOnce(g0: Graph, log: seq<Event>, j: nat, k: nat)
    requires Chronological(g0, log) && j < k < |log|
    ensures log[k].kind == TaskCompleted ==> log[j] != log[k]
  {
    assert CompletedInOrder(g0, log, k);
    assert log[..k][j] == log[j];
  }

  /** Done when the run began, or completed before position k. */
  ghost predicate DoneBefore(g0: Graph, log: seq<Event>, k: nat, t: TaskId) {
    t in DoneIds(g0) || exists j :: 0 <= j < k <= |log| && log[j] == Event(TaskCompleted, Some(t))
  }

  /**
   Completion order is a linear extension of the dependency graph: a completion names an open
   task of the graph, happens once, and everything the task depends on was done before.
   */
  lemma CompletionOrder(s: State, steps: seq<Step>, repair: bool, k: nat)
    requires Unstarted(s)
    requires k < |Execute(s, steps, repair).run.log| && Execute(s, steps, repair).run.log[k].kind == TaskCompleted
    ensures var log := Execute(s, steps, repair).run.log;
            && log[k].task.Some? && log[k].task.value in Ids(s.run.graph) - DoneIds(s.run.graph)
            && (forall j :: 0 <= j < |log| && log[j] == log[k] ==> j == k)
            && (forall d :: DependsOn(s.run.graph, log[k].task.value, d) ==> DoneBefore(s.run.graph, log, k, d))
  {
    RunKeeps(s, steps, repair);
    ChronologyOrders(s.run.graph, Execute(s, steps, repair).run.log, k);
  }

  lemma ChronologyOrders(g0: Graph, log: seq<Event>, k: nat)
    requires Chronological(g0, log) && k < |log| && log[k].kind == TaskCompleted
    ensures log[k].task.Some? && log[k].task.value in Ids(g0) - DoneIds(g0)
    ensures forall j :: 0 <= j < |log| && log[j] == log[k] ==> j == k
    ensures forall d :: DependsOn(g0, log[k].task.value, d) ==> DoneBefore(g0, log, k, d)
  {
    assert CompletedInOrder(g0, log, k);
    forall j | 0 <= j < |log| && j != k ensures log[j] != log[k] {
      CompletedOnce(g0, log, if j < k then j else k, if j < k then k else j);
    }
    forall d | DependsOn(g0, log[k].task.value, d) ensures DoneBefore(g0, log, k, d) {
      if d !in DoneIds(g0) {
        var j :| 0 <= j < k && log[..k][j] == Event(TaskCompleted, Some(d));
        assert log[j] == Event(TaskCompleted, Some(d));
      }
    }
  }

  /** At most one task is in progress; it is the active one unless the run was interrupted. */
  lemma OneTaskAtATime(s: State, steps: seq<Step>, repair: bool, i: nat)
    requires Unstarted(s)
    requires i < |Execute(s, steps, repair).run.graph| && Execute(s, steps, repair).run.graph[i].status == InProgress
    ensures var r := Execute(s, steps, repair).run;
            && (forall j :: 0 <= j < |r.graph| && r.graph[j].status == InProgress ==> j == i)
            && (r.active == Some(r.graph[i].id) || (r.active.None? && Event(RunInterruptedEvent, None) in r.log))
  {
    RunKeeps(s, steps, repair);
  }

  /** A succeeded run has every task done, and accepted each one it completed on all its required checks. */
  lemma NoSuccessWithoutEvidence(s: State, steps: seq<Step>, repair: bool)
    requires Unstarted(s) && Execute(s, steps, repair).run.status == RunSucceeded
    ensures var r, completed := Execute(s, steps, repair).run, Ids(s.run.graph) - DoneIds(s.run.graph);
            && r.graph != [] && IsComplete(r.graph)
            && (forall t, c :: t in completed && c in r.checks && Owes(c, Some(t)) ==> c.status == CheckPassed)
            && (forall t :: t in completed && t in CHECK_GATED_TASKS ==> exists c :: c in r.checks && Owes(c, Some(t)))
  {
    RunKeeps(s, steps, repair);
    var r, completed := Execute(s, steps, repair).run, Ids(s.run.graph) - DoneIds(s.run.graph);
    ShapeFacts(s.run.graph, r.graph);
    forall t | t in completed ensures AcceptanceGate(r.checks, Some(t)) {
      var i :| 0 <= i < |r.graph| && r.graph[i].id == t;
    }
    forall t | t in completed && t in CHECK_GATED_TASKS ensures exists c :: c in r.checks && Owes(c, Some(t)) {
      assert AcceptanceGate(r.checks, Some(t));
      var i :| 0 <= i < |r.checks| && Owes(r.checks[i], Some(t));
      assert r.checks[i] in r.checks;
    }
  }

  // ---------------------------------------------------------------- cycles never succeed

  /** Where a completed id stands in the log. */
  ghost function Position(log: seq<Event>, t: TaskId): nat
    requires Event(TaskCompleted, Some(t)) in log
    ensures Position(log, t) < |log| && log[Position(log, t)] == Event(TaskCompleted, Some(t))
  {
    var k :| 0 <= k < |log| && log[k] == Event(TaskCompleted, Some(t));
    k
  }

  /** Along a dependency walk of tasks completed by the run, completions move to the left. */
  lemma {:induction false} WalkMovesLeft(g0: Graph, log: seq<Event>, w: seq<TaskId>)
    requires Chronological(g0, log) && |w| > 1 && IsWalk(g0, w)
    requires Event(TaskCompleted, Some(w[0])) in log && forall x <- w :: x !in DoneIds(g0)
    ensures Event(TaskCompleted, Some(w[|w| - 1])) in log
    ensures Position(log, w[|w| - 1]) < Position(log, w[0])
    decreases |w|
  {
    var k := Position(log, w[0]);
    ChronologyOrders(g0, log, k);
    assert DependsOn(g0, w[0], w[1]);
    var j :| 0 <= j < k && log[j] == Event(TaskCompleted, Some(w[1]));
    ChronologyOrders(g0, log, j);
    if |w| > 2 {
      assert IsWalk(g0, w[1..]) by {
        forall m | 0 <= m < |w[1..]| - 1 ensures DependsOn(g0, w[1..][m], w[1..][m + 1]) {
          assert DependsOn(g0, w[m + 1], w[m + 2]);
        }
      }
      WalkMovesLeft(g0, log, w[1..]);
    }
  }

  /** A cycle cannot be worked off: one of its tasks was done from the start, or one never gets done. */
  lemma CycleStays(g0: Graph, log: seq<Event>, c: seq<TaskId>)
    requires Chronological(g0, log) && IsCycle(g0, c) && forall x <- c :: x !in DoneIds(g0)
    ensures !Finished(g0, log, c[0])
  {
    if Finished(g0, log, c[0]) {
      WalkMovesLeft(g0, log, c);
      assert false;
    }
  }

  /** A finished task's dependencies are finished. */
  lemma FinishedIsClosed(g0: Graph, log: seq<Event>, t: TaskId, d: TaskId)
    requires Chronological(g0, log) && Finished(g0, log, t) && t !in DoneIds(g0) && DependsOn(g0, t, d)
    ensures Finished(g0, log, d) && (d in DoneIds(g0) || d in Ids(g0))
  {
    var k :| 0 <= k < |log| && log[k] == Event(TaskCompleted, Some(t));
    ChronologyOrders(g0, log, k);
    if d !in DoneIds(g0) {
      var j :| 0 <= j < k && log[j] == Event(TaskCompleted, Some(d));
      ChronologyOrders(g0, log, j);
    }
  }

  /**
   A run can succeed only if what it had to complete is closed and acyclic.  With nothing done at
   the start that is the whole graph.
   */
  lemma SuccessNeedsSoundGraph(s: State, steps: seq<Step>, repair: bool)
    requires Unstarted(s) && Execute(s, steps, repair).run.status == RunSucceeded
    ensures !OpenMissing(s.run.graph) && !OpenCycle(s.run.graph)
    ensures DoneIds(s.run.graph) == {} ==> !HasMissingDependency(s.run.graph) && !HasCycle(s.run.graph)
  {
    RunKeeps(s, steps, repair);
    var g0, r := s.run.graph, Execute(s, steps, repair).run;
    forall t | t in Ids(g0) ensures Finished(g0, r.log, t) {
      var i :| 0 <= i < |g0| && g0[i].id == t;
      assert r.graph[i].id == t && r.graph[i].status == Done;
    }
    EverythingFinished(g0, r.log);
  }

  lemma EverythingFinished(g0: Graph, log: seq<Event>)
    requires UniqueIds(g0) && Chronological(g0, log) && forall t <- Ids(g0) :: Finished(g0, log, t)
    ensures !OpenMissing(g0) && !OpenCycle(g0)
    ensures DoneIds(g0) == {} ==> !HasMissingDependency(g0) && !HasCycle(g0)
  {
    forall i, d | 0 <= i < |g0| && g0[i].status != Done && d in g0[i].deps ensures d in Ids(g0) {
      assert g0[i].id in Ids(g0) && g0[i].id !in DoneIds(g0);
      assert DependsOn(g0, g0[i].id, d);
      FinishedIsClosed(g0, log, g0[i].id, d);
    }
    forall c | IsCycle(g0, c) ensures exists x :: x in c && x in DoneIds(g0) {
      if forall x <- c :: x !in DoneIds(g0) {
        assert DependsOn(g0, c[0], c[1]);
        CycleStays(g0, log, c);
        assert false;
      }
    }
    if DoneIds(g0) == {} {
      assert forall i :: 0 <= i < |g0| ==> (g0[i].status == Done ==> g0[i].id in DoneIds(g0));
    }
  }

  // ---------------------------------------------------------------- the deadlock verdict

  /**
   When a run is failed with a dependency deadlock, its graph has a cycle or a missing
   dependency or began with a cancelled task, or an earlier event gave a task up.
   */
  lemma DeadlockHasCause(s: State, steps: seq<Step>, repair: bool, k: nat)
    requires Unstarted(s)
    requires k < |Execute(s, steps, repair).run.log| && Execute(s, steps, repair).run.log[k].kind == RunDeadlocked
    ensures || HasMissingDependency(s.run.graph) || HasCycle(s.run.graph) || CancelledIds(s.run.graph) != {}
            || exists j :: 0 <= j < k && Execute(s, steps, repair).run.log[j].kind in {TaskFailed, TaskCancelled}
  {
    RunKeeps(s, steps, repair);
    var r := Execute(s, steps, repair).run;
    if SomeoneGaveUp(r.log[..k]) {
      var j :| 0 <= j < |r.log[..k]| && r.log[..k][j].kind in {TaskFailed, TaskCancelled};
      assert r.log[j].kind in {TaskFailed, TaskCancelled};
    }
  }

  lemma VerdictOf(r: Run, t: TaskId)
    ensures var q := Succeed(r, Some(t));
            && q.graph == WithStatus(r.graph, Some(t), Done)
            && |q.log| > 0
            && (q.log[|q.log| - 1].kind == RunDeadlocked <==> NextTask(q.graph).None? && !IsComplete(q.graph))
            && (q.log[|q.log| - 1].kind == RunDeadlocked ==> Event(RunDeadlocked, None) in q.log)
  {
    AnnouncedVerdict(EmitOnce(r.(graph := WithStatus(r.graph, Some(t), Done), active := None), TaskCompleted, Some(t)));
  }

  lemma AnnouncedVerdict(c: Run)
    ensures var q := Announce(c);
            && q.graph == c.graph && |q.log| > 0
            && (q.log[|q.log| - 1].kind == RunDeadlocked <==> NextTask(c.graph).None? && !IsComplete(c.graph))
            && (q.log[|q.log| - 1].kind == RunDeadlocked ==> q.log[|q.log| - 1] == Event(RunDeadlocked, None))
  {
  }

  /**
   The exact condition on a sound graph: completing a task ends in the deadlock verdict if and
   only if nothing is ready while some task stands failed or cancelled.
   */
  lemma DeadlockVerdictExact(g0: Graph, r: Run, t: TaskId)
    requires Core(g0, r) && r.started && Live(r.graph, t) && OnlyInProgress(r.graph, Some(t))
    requires AcceptanceGate(r.checks, Some(t))
    requires !HasMissingDependency(g0) && !HasCycle(g0)
    ensures var q := Succeed(r, Some(t));
            q.log[|q.log| - 1].kind == RunDeadlocked
            <==> NextTask(q.graph).None? && exists i :: 0 <= i < |q.graph| && q.graph[i].status in {Failed, Cancelled}
  {
    VerdictOf(r, t);
    OthersAreIdle(g0, r, t);
    var g := WithStatus(r.graph, Some(t), Done);
    if NextTask(g).None? { StuckIffHalted(g0, g); }
  }

  /** Once the task in progress is done, every other task is pending, done, failed or cancelled. */
  lemma OthersAreIdle(g0: Graph, r: Run, t: TaskId)
    requires Core(g0, r) && OnlyInProgress(r.graph, Some(t))
    ensures var g := WithStatus(r.graph, Some(t), Done);
            SameShape(g0, g) && UniqueIds(g) && forall i :: 0 <= i < |g| ==> g[i].status !in {InProgress, Blocked}
  {
  }

  lemma StuckIffHalted(g0: Graph, g: Graph)
    requires SameShape(g0, g) && UniqueIds(g) && !HasMissingDependency(g0) && !HasCycle(g0)
    requires forall i :: 0 <= i < |g| ==> g[i].status !in {InProgress, Blocked}
    requires NextTask(g).None?
    ensures !IsComplete(g) <==> exists i :: 0 <= i < |g| && g[i].status in {Failed, Cancelled}
  {
    ShapeFacts(g, g0);
    if !HasHaltedTask(g) { NothingReadyIffComplete(g); }
  }

  ghost predicate At(s: State, g: Graph, active: Option<TaskId>, status: RunStatus, worker: Worker) {
    s.run.graph == g && s.run.active == active && s.run.status == status && s.worker == worker && s.run.started
  }

  function A(status: Status): Task { Task("a", [], status, 0, 2) }

  function B(status: Status): Task { Task("b", [], status, 0, 2) }

  lemma StartsA(s: State)
    requires s.run.graph == [A(Pending), B(Pending)] && s.run.status == Queued && !s.run.started && s.worker == Idle
    ensures At(Start(s), [A(InProgress), B(Pending)], Some("a"), Running, Working(Plain, None, false))
    ensures Start(s).run.checks == s.run.checks
  {
    assert NextTask(s.run.graph) == Some(A(Pending)) by { assert Ready(s.run.graph, s.run.graph[0]); }
    assert WithStatus(s.run.graph, Some("a"), InProgress) == [A(InProgress), B(Pending)];
  }

  lemma CancelOvertakes(s: State, worker: Worker)
    requires At(s, [A(InProgress), B(Pending)], Some("a"), Running, worker)
    ensures At(CancelRequest(Fallback(s)), [A(Cancelled), B(Pending)], None, RunCancelled, worker)
    ensures CancelRequest(Fallback(s)).run.checks == s.run.checks
  {
    assert WithStatus(s.run.graph, Some("a"), Cancelled) == [A(Cancelled), B(Pending)];
  }

  lemma SlowWorkerAsks(s: State)
    requires At(s, [A(Cancelled), B(Pending)], None, RunCancelled, Working(Plain, None, false))
    ensures At(AnswerQuestion(Finish(s, [AskQuestion], NoCall, true)), s.run.graph, None, Queued, Idle)
    ensures AnswerQuestion(Finish(s, [AskQuestion], NoCall, true)).run.checks == s.run.checks
  {
    assert [AskQuestion][1..] == [];
    assert Drain(s, [AskQuestion]) == DrainOne(s, AskQuestion);
  }

  lemma ResumesB(s: State)
    requires At(s, [A(Cancelled), B(Pending)], None, Queued, Idle)
    ensures At(Resume(s), [A(Cancelled), B(InProgress)], Some("b"), Running, Working(Plain, None, false))
    ensures Resume(s).run.checks == s.run.checks
  {
    var g := s.run.graph;
    assert FirstInProgress(g, 2).None? && FirstInProgress(g, 1).None? && FirstInProgress(g).None?;
    assert !Ready(g, g[0]) && Ready(g, g[1]);
    assert FirstReady(g, 1) == Some(B(Pending)) && NextTask(g) == Some(B(Pending));
    assert WithStatus(g, Some("b"), InProgress) == [A(Cancelled), B(InProgress)];
  }

  /** A worker that reports success and nothing else completes the active task. */
  lemma FinishesIt(s: State, repair: bool) returns (r: Run)
    requires s.worker == Working(Plain, None, false) && s.run.active.Some? && AcceptanceGate(s.run.checks, s.run.active)
    ensures r == s.run.(log := s.run.log + [Event(TaskReport, s.run.active)] + [Event(Usage, None)])
    ensures Finish(s, [CompleteTask(true)], NoCall, repair) == State(Succeed(r, s.run.active), Idle)
  {
    var none: seq<AgentEvent> := [];
    assert [CompleteTask(true)][1..] == none;
    var d := DrainOne(s, CompleteTask(true)).value;
    assert Drain(s, [CompleteTask(true)]) == Some(d) by { assert Drain(d, none) == Some(d); }
    r := Emit(d.run, Usage, None);
  }

  lemma FinishesB(s: State)
    requires At(s, [A(Cancelled), B(InProgress)], Some("b"), Running, Working(Plain, None, false))
    requires AcceptanceGate(s.run.checks, Some("b"))
    ensures Event(RunDeadlocked, None) in Finish(s, [CompleteTask(true)], NoCall, true).run.log
  {
    var r := FinishesIt(s, true);
    BIsTheLast(r.graph);
    VerdictOf(r, "b");
  }

  lemma BIsTheLast(g: Graph)
    requires g == [A(Cancelled), B(InProgress)]
    ensures var h := WithStatus(g, Some("b"), Done); NextTask(h).None? && !IsComplete(h)
  {
    var h := WithStatus(g, Some("b"), Done);
    assert h == [A(Cancelled), B(Done)];
    assert FirstReady(h, 2).None? && FirstReady(h, 1).None?;
  }

  lemma ExecuteThen(s: State, steps: seq<Step>, step: Step, repair: bool)
    ensures Execute(s, steps + [step], repair) == Apply(Execute(s, steps, repair), step, repair)
  {
    assert (steps + [step])[..|steps|] == steps;
  }

  lemma {:induction false} ExecuteConcat(s: State, a: seq<Step>, b: seq<Step>, repair: bool)
    ensures Execute(s, a + b, repair) == Execute(Execute(s, a, repair), b, repair)
    decreases |b|
  {
    if b == [] {
      assert a + b == a;
    } else {
      assert (a + b)[..|a + b| - 1] == a + b[..|b| - 1];
      ExecuteConcat(s, a, b[..|b| - 1], repair);
    }
  }

  /** The run up to the cancellation, and from the slow worker's question on. */
  function Overtaken(): seq<Step> {
    [DoStart] + [DoFallback] + [DoCancelRequest] + [DoFinish([AskQuestion], NoCall)] + [DoAnswerQuestion] + [DoResume]
    + [DoFinish([CompleteTask(true)], NoCall)]
  }

  lemma OvertakenRun(s: State)
    ensures var s5 := AnswerQuestion(Finish(CancelRequest(Fallback(Start(s))), [AskQuestion], NoCall, true));
            Execute(s, Overtaken(), true) == Finish(Resume(s5), [CompleteTask(true)], NoCall, true)
  {
    var a := [DoStart];
    var none: seq<Step> := [];
    ExecuteThen(s, none, DoStart, true);
    assert none + a == a;
    var b := a + [DoFallback];
    ExecuteThen(s, a, DoFallback, true);
    var c := b + [DoCancelRequest];
    ExecuteThen(s, b, DoCancelRequest, true);
    var d := c + [DoFinish([AskQuestion], NoCall)];
    ExecuteThen(s, c, DoFinish([AskQuestion], NoCall), true);
    var e := d + [DoAnswerQuestion];
    ExecuteThen(s, d, DoAnswerQuestion, true);
    ExecuteThen(s, e, DoResume, true);
    ExecuteThen(s, e + [DoResume], DoFinish([CompleteTask(true)], NoCall), true);
  }

  /** From a fresh pair of independent tasks to the moment the second one is resumed. */
  lemma OvertakenUntilResumed(s: State)
    requires s.run.graph == [A(Pending), B(Pending)] && s.run.status == Queued && !s.run.started && s.worker == Idle
    ensures var s6 := Resume(AnswerQuestion(Finish(CancelRequest(Fallback(Start(s))), [AskQuestion], NoCall, true)));
            At(s6, [A(Cancelled), B(InProgress)], Some("b"), Running, Working(Plain, None, false)) && s6.run.checks == s.run.checks
  {
    StartsA(s);
    var s1 := Start(s);
    CancelOvertakes(s1, Working(Plain, None, false));
    var s3 := CancelRequest(Fallback(s1));
    SlowWorkerAsks(s3);
    ResumesB(AnswerQuestion(Finish(s3, [AskQuestion], NoCall, true)));
  }

  /**
   The third cause is real: on two independent tasks, a cancellation that a slow worker
   overtakes leaves one task cancelled and the run alive, and finishing the other task reports
   a dependency deadlock although no dependency exists.
   */
  lemma DeadlockWithoutCycle(checks: seq<Check>) returns (s: State)
    requires forall c :: c in checks ==> !c.required
    ensures Unstarted(s) && s.run.checks == checks && (forall t <- s.run.graph :: t.status == Pending)
    ensures !HasMissingDependency(s.run.graph) && !HasCycle(s.run.graph)
    ensures Event(RunDeadlocked, None) in Execute(s, Overtaken(), true).run.log
  {
    s := State(Run(Queued, false, [A(Pending), B(Pending)], None, map[], [], checks, false), Idle);
    NoEdges(s.run.graph);
    OvertakenUntilResumed(s);
    OvertakenRun(s);
    var s6 := Resume(AnswerQuestion(Finish(CancelRequest(Fallback(Start(s))), [AskQuestion], NoCall, true)));
    NothingOwed(checks);
    FinishesB(s6);
  }

  lemma NothingOwed(checks: seq<Check>)
    requires forall c :: c in checks ==> !c.required
    ensures AcceptanceGate(checks, Some("b"))
  {
    assert "b" != "validate_and_verify";
  }

  lemma NoEdges(g: Graph)
    requires forall i :: 0 <= i < |g| ==> g[i].deps == []
    ensures !HasMissingDependency(g) && !HasCycle(g)
  {
    forall c ensures !IsCycle(g, c) {
      if |c| > 1 { assert !DependsOn(g, c[0], c[1]); }
    }
  }

  // ---------------------------------------------------------------- tool starts

  /** How many tool starts in the log are scoped to some task. */
  function ScopedToolStarts(log: seq<Event>): nat {
    if log == [] then 0
    else
      var e := log[|log| - 1];
      ScopedToolStarts(log[..|log| - 1]) + (if e.kind == ToolStarted && e.task.Some? then 1 else 0)
  }

  function CountsOver(g: Graph, log: seq<Event>): nat {
    if g == [] then 0 else CountsOver(g[..|g| - 1], log) + Count(log, Event(ToolStarted, Some(g[|g| - 1].id)))
  }

  lemma {:induction false} CountsOverGrow(g: Graph, log: seq<Event>, e: Event)
    requires UniqueIds(g)
    ensures CountsOver(g, log + [e])
            == CountsOver(g, log) + (if e.kind == ToolStarted && e.task.Some? && e.task.value in Ids(g) then 1 else 0)
  {
    if g != [] {
      var f := g[..|g| - 1];
      var last := g[|g| - 1].id;
      CountsOverGrow(f, log, e);
      assert (log + [e])[..|log + [e]| - 1] == log;
      assert Ids(g) == Ids(f) + {last} by {
        forall x ensures x in Ids(g) <==> x in Ids(f) + {last} {
          if x in Ids(g) { var i :| 0 <= i < |g| && g[i].id == x; if i < |f| { assert f[i].id == x; } }
          if x in Ids(f) { var i :| 0 <= i < |f| && f[i].id == x; assert g[i].id == x; }
          if x == last { assert g[|g| - 1].id == x; }
        }
      }
      assert last !in Ids(f) by {
        forall i | 0 <= i < |f| ensures f[i].id != last { assert g[i].id != g[|g| - 1].id; }
      }
    }
  }

  lemma {:induction false} ScopedIsCountsOver(g: Graph, log: seq<Event>)
    requires UniqueIds(g)
    requires forall k :: 0 <= k < |log| && log[k].kind == ToolStarted && log[k].task.Some? ==> log[k].task.value in Ids(g)
    ensures ScopedToolStarts(log) == CountsOver(g, log)
    decreases |log|
  {
    if log == [] {
      CountsOverEmpty(g);
    } else {
      var front, e := log[..|log| - 1], log[|log| - 1];
      assert log == front + [e];
      ScopedIsCountsOver(g, front);
      CountsOverGrow(g, front, e);
    }
  }

  lemma {:induction false} CountsOverEmpty(g: Graph)
    ensures CountsOver(g, []) == 0
  {
    if g != [] { CountsOverEmpty(g[..|g| - 1]); }
  }

  lemma {:induction false} CountsOverBounded(g: Graph, log: seq<Event>)
    requires forall t: TaskId :: Count(log, Event(ToolStarted, Some(t))) <= MAX_TOOL_ITERATIONS
    ensures CountsOver(g, log) <= MAX_TOOL_ITERATIONS * |g|
  {
    if g != [] { CountsOverBounded(g[..|g| - 1], log); }
  }

  /** A run of n tasks logs at most 40 n task-scoped tool starts, over all attempts and retries. */
  lemma ToolStartsBounded(s: State, steps: seq<Step>, repair: bool)
    requires Unstarted(s)
    ensures ScopedToolStarts(Execute(s, steps, repair).run.log) <= 40 * |s.run.graph|
  {
    RunKeeps(s, steps, repair);
    var r := Execute(s, steps, repair).run;
    ScopedIsCountsOver(s.run.graph, r.log);
    CountsOverBounded(s.run.graph, r.log);
  }
}
