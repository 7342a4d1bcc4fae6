/**
 Exactly which unstarted runs can succeed.

 Necessity goes over all runs: a task that began cancelled is never picked up again, and success
 costs at least one completion.  Sufficiency is a run that packages well and then finishes one
 task after the other.
 */
module RunOutcome {
  import opened Wrappers
  import opened TaskGraph
  import opened RunModel
  import opened RunSafety
  import opened RunInvariant
  import opened RunTheorems
  import opened RunProgress
  import opened RunSuccess

  // ---------------------------------------------------------------- cancelled from the start

  /** Nothing points at task `x`, and it stands cancelled. */
  ghost predicate Shelved(s: State, x: TaskId) {
    && s.run.active != Some(x)
    && (s.worker.Working? && s.worker.report.Some? ==> s.worker.report.value.task != Some(x))
    && Rests(s.run.graph, x)
  }

  ghost predicate Rests(g: Graph, x: TaskId) {
    forall i :: 0 <= i < |g| && g[i].id == x ==> g[i].status == Cancelled
  }

  lemma NextIsNotShelved(g: Graph, x: TaskId)
    requires Rests(g, x)
    ensures NextTask(g).Some? ==> NextTask(g).value.id != x
    ensures NextOnResume(g).Some? ==> NextOnResume(g).value.id != x
  {
  }

  lemma OthersMove(g: Graph, x: TaskId, id: Option<TaskId>, status: Status)
    requires Rests(g, x) && id != Some(x)
    ensures Rests(WithStatus(g, id, status), x)
  {
  }

  lemma BeginShelves(s: State, resumption: Resumption, next: Option<Task>, plan: bool, x: TaskId)
    requires Shelved(s, x) && (next.Some? ==> next.value.id != x)
    ensures Shelved(Begin(s.run, resumption, next, plan), x)
  {
  }

  lemma {:induction false} DrainShelves(s: State, acts: seq<AgentEvent>, x: TaskId)
    requires Shelved(s, x) && s.worker.Working? && Drain(s, acts).Some?
    ensures Shelved(Drain(s, acts).value, x)
    decreases |acts|
  {
    if acts != [] { DrainShelves(DrainOne(s, acts[0]).value, acts[1..], x); }
  }

  lemma SucceedShelves(r: Run, id: Option<TaskId>, x: TaskId)
    requires Rests(r.graph, x) && id != Some(x)
    ensures Rests(Succeed(r, id).graph, x) && Succeed(r, id).active != Some(x)
  {
    SucceedGraph(r, id);
    OthersMove(r.graph, x, id, Done);
    NextIsNotShelved(WithStatus(r.graph, id, Done), x);
  }

  lemma FailShelves(r: Run, id: Option<TaskId>, repair: bool, x: TaskId)
    requires Rests(r.graph, x) && id != Some(x)
    ensures Rests(FailTask(r, id, repair).graph, x) && FailTask(r, id, repair).active != Some(x)
  {
    FailGraphs(r, id, repair);
    FailFields(r, id, repair);
  }

  lemma PauseShelves(s: State, call: Call, x: TaskId)
    requires Shelved(s, x) && s.worker.Working?
    ensures Shelved(State(Pause(s.run, s.worker, call), Idle), x)
  {
  }

  lemma ConcludeShelves(s: State, call: Call, repair: bool, x: TaskId)
    requires Shelved(s, x) && s.worker.Working?
    ensures Shelved(State(Conclude(s.run, s.worker, call, repair), Idle), x)
  {
    if Judging(s.worker, call) {
      SucceedShelves(s.run, JudgedTask(s.run, s.worker), x);
      FailShelves(s.run, JudgedTask(s.run, s.worker), repair, x);
    } else {
      PauseShelves(s, call, x);
    }
  }

  lemma RaiseShelves(s: State, x: TaskId)
    requires Shelved(s, x)
    ensures Shelved(Raise(s), x)
  {
  }

  lemma ChunkShelves(s: State, acts: seq<AgentEvent>, x: TaskId)
    requires Shelved(s, x)
    ensures Shelved(Chunk(s, acts), x)
  {
    RaiseShelves(s, x);
    if Streaming(s) && Drain(s, acts).Some? { DrainShelves(s, acts, x); }
  }

  lemma FinishShelves(s: State, acts: seq<AgentEvent>, call: Call, repair: bool, x: TaskId)
    requires Shelved(s, x)
    ensures Shelved(Finish(s, acts, call, repair), x)
  {
    RaiseShelves(s, x);
    if Streaming(s) && Drain(s, acts).Some? {
      DrainShelves(s, acts, x);
      var d := Drain(s, acts).value;
      ConcludeShelves(State(Emit(d.run, Usage, None), d.worker), call, repair, x);
    }
  }

  lemma RejectShelves(s: State, x: TaskId)
    requires Shelved(s, x)
    ensures Shelved(RejectAction(s), x)
  {
    if s.worker.Working? && s.worker.resumption.Rejected? { RejectEffect(s); }
  }

  lemma WatchdogShelves(s: State, x: TaskId)
    requires Shelved(s, x)
    ensures Shelved(Watchdog(s), x)
  {
  }

  lemma CancelShelves(s: State, x: TaskId)
    requires Shelved(s, x)
    ensures Shelved(CancelRequest(s), x)
  {
  }

  lemma RoutesShelve(s: State, step: Step, repair: bool, x: TaskId)
    requires Shelved(s, x) && IsRoute(step)
    ensures Shelved(Apply(s, step, repair), x)
  {
    CancelShelves(s, x);
  }

  lemma StepShelves(s: State, step: Step, repair: bool, x: TaskId)
    requires Shelved(s, x)
    ensures Shelved(Apply(s, step, repair), x)
  {
    NextIsNotShelved(s.run.graph, x);
    match step
    case DoStart => BeginShelves(s, Plain, NextTask(s.run.graph), true, x);
    case DoResume => BeginShelves(s, Plain, NextOnResume(s.run.graph), false, x);
    case DoResumeAction(resumption) => BeginShelves(s, resumption, None, false, x);
    case DoRejectAction => RejectShelves(s, x);
    case DoChunk(acts) => ChunkShelves(s, acts, x);
    case DoFinish(acts, call) => FinishShelves(s, acts, call, repair, x);
    case DoRaise => RaiseShelves(s, x);
    case DoWatchdog => WatchdogShelves(s, x);
    case DoRecordPackaging(report) =>
    case _ => RoutesShelve(s, step, repair, x);
  }

  /** A task that was cancelled when the run began stays so for good. */
  lemma {:induction false} CancelledStays(s: State, steps: seq<Step>, repair: bool, x: TaskId)
    requires Unstarted(s) && x in CancelledIds(s.run.graph)
    ensures Shelved(Execute(s, steps, repair), x)
    decreases |steps|
  {
    if steps != [] {
      CancelledStays(s, steps[..|steps| - 1], repair, x);
      StepShelves(Execute(s, steps[..|steps| - 1], repair), steps[|steps| - 1], repair, x);
    }
  }

  // ---------------------------------------------------------------- success costs a completion

  lemma RaiseDoesNotSucceed(s: State)
    ensures Raise(s).run.status == RunSucceeded ==> s.run.status == RunSucceeded
  {
  }

  lemma {:induction false} DrainKeepsStatus(s: State, acts: seq<AgentEvent>)
    requires s.worker.Working? && Drain(s, acts).Some?
    ensures Drain(s, acts).value.run.status == s.run.status
    decreases |acts|
  {
    if acts != [] { DrainKeepsStatus(DrainOne(s, acts[0]).value, acts[1..]); }
  }

  lemma PauseDoesNotSucceed(r: Run, w: Worker, call: Call)
    requires w.Working? && r.status != RunSucceeded
    ensures Pause(r, w, call).status != RunSucceeded
  {
  }

  lemma ConcludeSucceeds(r: Run, w: Worker, call: Call, repair: bool)
    requires w.Working? && r.status != RunSucceeded && Conclude(r, w, call, repair).status == RunSucceeded
    ensures Judging(w, call) && w.report.value.success && AcceptanceGate(r.checks, JudgedTask(r, w))
  {
    if Judging(w, call) { FailFields(r, JudgedTask(r, w), repair); } else { PauseDoesNotSucceed(r, w, call); }
  }

  lemma FinishSucceeds(s: State, acts: seq<AgentEvent>, call: Call, repair: bool)
    requires s.run.status != RunSucceeded && Finish(s, acts, call, repair).run.status == RunSucceeded
    ensures Completes(s, DoFinish(acts, call))
  {
    RaiseDoesNotSucceed(s);
    if Streaming(s) && Drain(s, acts).Some? {
      var d := Drain(s, acts).value;
      DrainKeepsStatus(s, acts);
      DrainKeepsChecks(s, acts);
      ConcludeSucceeds(Emit(d.run, Usage, None), d.worker, call, repair);
    }
  }

  lemma ChunkDoesNotSucceed(s: State, acts: seq<AgentEvent>)
    requires s.run.status != RunSucceeded
    ensures Chunk(s, acts).run.status != RunSucceeded
  {
    RaiseDoesNotSucceed(s);
    if Streaming(s) && Drain(s, acts).Some? { DrainKeepsStatus(s, acts); }
  }

  lemma BeginDoesNotSucceed(s: State)
    requires s.run.status != RunSucceeded
    ensures Start(s).run.status != RunSucceeded && Resume(s).run.status != RunSucceeded
    ensures forall resumption :: ResumeAction(s, resumption).run.status != RunSucceeded
  {
  }

  lemma RoutesDoNotSucceed(s: State, step: Step, repair: bool)
    requires s.run.status != RunSucceeded && IsRoute(step)
    ensures Apply(s, step, repair).run.status != RunSucceeded
  {
  }

  lemma OthersDoNotSucceed(s: State, step: Step, repair: bool)
    requires s.run.status != RunSucceeded
    requires step.DoRejectAction? || step.DoRaise? || step.DoWatchdog? || step.DoRecordPackaging?
    ensures Apply(s, step, repair).run.status != RunSucceeded
  {
    RaiseDoesNotSucceed(s);
  }

  lemma StepSucceeds(s: State, step: Step, repair: bool)
    requires s.run.status != RunSucceeded && Apply(s, step, repair).run.status == RunSucceeded
    ensures Completes(s, step)
  {
    if IsRoute(step) {
      RoutesDoNotSucceed(s, step, repair);
    } else {
      match step
      case DoStart => BeginDoesNotSucceed(s);
      case DoResume => BeginDoesNotSucceed(s);
      case DoResumeAction(resumption) => BeginDoesNotSucceed(s);
      case DoChunk(acts) => ChunkDoesNotSucceed(s, acts);
      case DoFinish(acts, call) => FinishSucceeds(s, acts, call, repair);
      case _ => OthersDoNotSucceed(s, step, repair);
    }
  }

  lemma {:induction false} SuccessCosts(s: State, steps: seq<Step>, repair: bool)
    requires Unstarted(s)
    ensures Execute(s, steps, repair).run.status == RunSucceeded ==> ProgressSteps(s, steps, repair) >= 1
    decreases |steps|
  {
    if steps != [] && Execute(s, steps, repair).run.status == RunSucceeded {
      var before := Execute(s, steps[..|steps| - 1], repair);
      SuccessCosts(s, steps[..|steps| - 1], repair);
      if before.run.status != RunSucceeded { StepSucceeds(before, steps[|steps| - 1], repair); }
    }
  }

  lemma {:induction false} NoWorkLeft(g: Graph, taskRetries: map<TaskId, int>)
    requires IsComplete(g)
    ensures Work(g, taskRetries) == 0
  {
    if g != [] { NoWorkLeft(g[..|g| - 1], taskRetries); }
  }

  // ---------------------------------------------------------------- what a run needs to succeed

  /** Something is left to do, all of it is pending and attainable, and it is closed and acyclic. */
  ghost predicate Completable(r: Run) {
    && !IsComplete(r.graph)
    && (forall i :: 0 <= i < |r.graph| && r.graph[i].status != Done ==>
          r.graph[i].status == Pending && Attainable(r.checks, r.graph[i].id))
    && !OpenMissing(r.graph) && !OpenCycle(r.graph)
  }

  lemma SuccessNeeds(s: State, steps: seq<Step>, repair: bool)
    requires Unstarted(s) && Execute(s, steps, repair).run.status == RunSucceeded
    ensures Completable(s.run)
  {
    var g := s.run.graph;
    SuccessNeedsSoundGraph(s, steps, repair);
    if IsComplete(g) {
      SuccessCosts(s, steps, repair);
      ProgressPaysWork(s, steps, repair);
      NoWorkLeft(g, map[]);
      assert false;
    }
    forall i | 0 <= i < |g| && g[i].status != Done ensures g[i].status == Pending && Attainable(s.run.checks, g[i].id) {
      OpenTaskWasPending(s, steps, repair, i);
    }
  }

  lemma OpenTaskWasPending(s: State, steps: seq<Step>, repair: bool, i: nat)
    requires Unstarted(s) && Execute(s, steps, repair).run.status == RunSucceeded
    requires i < |s.run.graph| && s.run.graph[i].status != Done
    ensures s.run.graph[i].status == Pending && Attainable(s.run.checks, s.run.graph[i].id)
  {
    var g0, x := s.run.graph, s.run.graph[i].id;
    RunKeeps(s, steps, repair);
    NotDoneYet(g0, i);
    DoneWasAccepted(g0, Execute(s, steps, repair).run, i);
    RunKeepsAttainable(s, steps, repair, x);
    OpenGateIsAttainable(Execute(s, steps, repair).run.checks, x);
    if g0[i].status == Cancelled { CancelledStays(s, steps, repair, x); }
  }

  // ---------------------------------------------------------------- and what suffices

  /** Between two tasks: nobody works, nothing is in progress, every open gate is open. */
  ghost predicate Between(s: State) {
    && s.worker == Idle && s.run.status == Queued
    && UniqueIds(s.run.graph) && !HasHaltedTask(s.run.graph)
    && (forall i :: 0 <= i < |s.run.graph| && s.run.graph[i].status != Done ==>
          AcceptanceGate(s.run.checks, Some(s.run.graph[i].id)))
    && !OpenMissing(s.run.graph) && !OpenCycle(s.run.graph)
  }

  function OneTask(s: State): seq<Step> {
    [if s.run.started then DoResume else DoStart, DoFinish([CompleteTask(true)], NoCall)]
  }

  lemma TakesUp(s: State)
    requires Between(s) && NextTask(s.run.graph).Some?
    ensures var id, t := Some(NextTask(s.run.graph).value.id), if s.run.started then Resume(s) else Start(s);
            && t.worker == Working(Plain, None, false) && t.run.active == id && t.run.started
            && t.run.checks == s.run.checks && t.run.graph == WithStatus(s.run.graph, id, InProgress)
  {
    assert forall i :: 0 <= i < |s.run.graph| ==> s.run.graph[i].status in {Pending, Done};
  }

  lemma DoneTwice(g: Graph, id: Option<TaskId>)
    ensures WithStatus(WithStatus(g, id, InProgress), id, Done) == WithStatus(g, id, Done)
  {
  }

  /** One task more is done; then the run goes on, or has succeeded. */
  lemma OneTaskDone(s: State, repair: bool)
    requires Between(s) && !IsComplete(s.run.graph)
    ensures NextTask(s.run.graph).Some?
    ensures var t, id := Execute(s, OneTask(s), repair), Some(NextTask(s.run.graph).value.id);
            && t.run.graph == WithStatus(s.run.graph, id, Done) && t.run.checks == s.run.checks && t.run.started
            && (if IsComplete(t.run.graph) then t.run.status == RunSucceeded else Between(t))
  {
    NothingReadyIffComplete(s.run.graph);
    var id := Some(NextTask(s.run.graph).value.id);
    var r := OneTaskRun(s, repair);
    MarkedDone(s, id.value);
    SucceedsOnTo(r, id, WithStatus(s.run.graph, id, Done));
  }

  /** The two transactions come down to the completion of the task the planner chose. */
  lemma OneTaskRun(s: State, repair: bool) returns (r: Run)
    requires Between(s) && NextTask(s.run.graph).Some?
    ensures var id := Some(NextTask(s.run.graph).value.id);
            && Execute(s, OneTask(s), repair) == State(Succeed(r, id), Idle)
            && r.started && r.checks == s.run.checks
            && WithStatus(r.graph, id, Done) == WithStatus(s.run.graph, id, Done)
  {
    var id := Some(NextTask(s.run.graph).value.id);
    var m := if s.run.started then Resume(s) else Start(s);
    TakesUp(s);
    NextIsOpen(s);
    r := FinishesIt(m, repair);
    DoneTwice(s.run.graph, id);
    OneTaskSteps(s, repair);
  }

  lemma OneTaskSteps(s: State, repair: bool)
    ensures Execute(s, OneTask(s), repair)
            == Finish(if s.run.started then Resume(s) else Start(s), [CompleteTask(true)], NoCall, repair)
  {
    TwoSteps(s, OneTask(s)[0], OneTask(s)[1], repair);
  }

  lemma NextIsOpen(s: State)
    requires Between(s) && NextTask(s.run.graph).Some?
    ensures AcceptanceGate(s.run.checks, Some(NextTask(s.run.graph).value.id))
  {
  }

  lemma TwoSteps(s: State, a: Step, b: Step, repair: bool)
    ensures Execute(s, [a, b], repair) == Apply(Apply(s, a, repair), b, repair)
  {
    var none: seq<Step> := [];
    assert [a, b][..1] == [a] && [a][..0] == none;
    assert Execute(s, none, repair) == s && Execute(s, [a], repair) == Apply(s, a, repair);
  }

  lemma DoneGrows(g: Graph, x: TaskId)
    requires x in Ids(g)
    ensures DoneIds(WithStatus(g, Some(x), Done)) == DoneIds(g) + {x}
  {
    var h := WithStatus(g, Some(x), Done);
    forall t ensures t in DoneIds(h) <==> t in DoneIds(g) + {x} {
      if t in DoneIds(g) + {x} {
        var i :| 0 <= i < |g| && g[i].id == t && (t == x || g[i].status == Done);
        assert h[i].status == Done && h[i].id == t;
      }
    }
  }

  /** Marking a task done leaves a sound rest. */
  lemma MarkedDone(s: State, x: TaskId)
    requires Between(s) && x in Ids(s.run.graph)
    ensures Between(s.(run := s.run.(graph := WithStatus(s.run.graph, Some(x), Done))))
  {
    var g, h := s.run.graph, WithStatus(s.run.graph, Some(x), Done);
    WithStatusRetasks(g, x, Done);
    ShapeFacts(g, h);
    assert forall i :: 0 <= i < |g| ==> (h[i].status != Done ==> g[i].status != Done);
    DoneGrows(g, x);
    if OpenCycle(h) {
      var c :| IsCycle(h, c) && forall y <- c :: y !in DoneIds(h);
      assert IsCycle(g, c);
      assert OpenCycle(g);
    }
  }

  lemma SucceedsOnTo(r: Run, id: Option<TaskId>, h: Graph)
    requires h == WithStatus(r.graph, id, Done) && UniqueIds(h)
    requires !HasHaltedTask(h) && !OpenMissing(h) && !OpenCycle(h)
    ensures var q := Succeed(r, id);
            && q.graph == h && q.checks == r.checks && q.started == r.started
            && q.status == if IsComplete(h) then RunSucceeded else Queued
  {
    NothingReadyIffComplete(h);
  }

  lemma {:induction false} GoodRun(s: State, repair: bool) returns (steps: seq<Step>)
    requires Between(s) && !IsComplete(s.run.graph)
    ensures Execute(s, steps, repair).run.status == RunSucceeded
    decreases |Ids(s.run.graph) - DoneIds(s.run.graph)|
  {
    OneTaskDone(s, repair);
    NextIsUndone(s.run.graph);
    OneLess(s.run.graph, NextTask(s.run.graph).value.id);
    var t := Execute(s, OneTask(s), repair);
    steps := OneTask(s);
    if !IsComplete(t.run.graph) {
      var rest := GoodRun(t, repair);
      ExecuteConcat(s, steps, rest, repair);
      steps := steps + rest;
    }
  }

  lemma NextIsUndone(g: Graph)
    requires UniqueIds(g) && NextTask(g).Some?
    ensures NextTask(g).value.id in Ids(g) - DoneIds(g)
  {
  }

  lemma OneLess(g: Graph, x: TaskId)
    requires x in Ids(g) && x !in DoneIds(g)
    ensures var h := WithStatus(g, Some(x), Done); |Ids(h) - DoneIds(h)| < |Ids(g) - DoneIds(g)|
  {
    var h := WithStatus(g, Some(x), Done);
    WithStatusRetasks(g, x, Done);
    ShapeFacts(g, h);
    DoneGrows(g, x);
    var was := Ids(g) - DoneIds(g);
    assert Ids(h) - DoneIds(h) == was - {x};
  }

  lemma CompletableSucceeds(s: State, repair: bool) returns (steps: seq<Step>)
    requires Unstarted(s) && Completable(s.run)
    ensures Execute(s, steps, repair).run.status == RunSucceeded
  {
    var t := RecordPackaging(s, ALL_GOOD);
    forall i | 0 <= i < |s.run.graph| && s.run.graph[i].status != Done
      ensures AcceptanceGate(t.run.checks, Some(s.run.graph[i].id))
    {
      GoodPackagingPasses(s.run.checks, s.run.graph[i].id);
    }
    var rest := GoodRun(t, repair);
    var first := [DoRecordPackaging(ALL_GOOD)];
    var none: seq<Step> := [];
    assert first[..0] == none;
    assert Execute(s, first, repair) == t by { assert Execute(s, none, repair) == s; }
    ExecuteConcat(s, first, rest, repair);
    steps := first + rest;
  }

  ghost predicate CanSucceed(s: State, repair: bool) {
    exists steps :: Execute(s, steps, repair).run.status == RunSucceeded
  }

  /** A run can succeed if and only if its open tasks are pending, attainable, closed and acyclic. */
  lemma SuccessExact(s: State, repair: bool)
    requires Unstarted(s)
    ensures CanSucceed(s, repair) <==> Completable(s.run)
  {
    if CanSucceed(s, repair) {
      var steps :| Execute(s, steps, repair).run.status == RunSucceeded;
      SuccessNeeds(s, steps, repair);
    }
    if Completable(s.run) {
      var steps := CompletableSucceeds(s, repair);
    }
  }
}
