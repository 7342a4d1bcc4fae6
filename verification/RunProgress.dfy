/**
 Termination of a run's work: two independent retry budgets bound how often a run can
 complete, requeue or recover a task, under every interleaving of its transactions.
 */
module RunProgress {
  import opened Wrappers
  import opened TaskGraph
  import opened RunModel
  import opened RunSafety
  import opened RunInvariant

  function Left(budget: int, used: int): nat {
    if used < budget then budget - used else 0
  }

  /** One unit for finishing the task, plus what is left of its two retry budgets. */
  function TaskWork(t: Task, taskRetries: map<TaskId, int>): nat {
    if t.status == Done then 0
    else 1 + Left(t.maxRetries, t.retryCount) + Left(MAX_TASK_RETRIES, Retries(taskRetries, t.id))
  }

  function Work(g: Graph, taskRetries: map<TaskId, int>): nat {
    if g == [] then 0 else Work(g[..|g| - 1], taskRetries) + TaskWork(g[|g| - 1], taskRetries)
  }

  // ---------------------------------------------------------------- which steps make progress

  /** The finishing transaction gets as far as judging the reported task. */
  predicate Judges(s: State, acts: seq<AgentEvent>, call: Call) {
    Streaming(s) && Drain(s, acts).Some? && Judging(Drain(s, acts).value.worker, call)
  }

  /** The task and report under judgement. */
  function Verdict(s: State, acts: seq<AgentEvent>, call: Call): Report
    requires Judges(s, acts, call)
  {
    var d := Drain(s, acts).value;
    Report(JudgedTask(d.run, d.worker), d.worker.report.value.success)
  }

  predicate Completes(s: State, step: Step) {
    step.DoFinish? && Judges(s, step.lastActs, step.call) &&
    var v := Verdict(s, step.lastActs, step.call);
    v.success && AcceptanceGate(s.run.checks, v.task)
  }

  predicate Requeues(s: State, step: Step, repair: bool) {
    step.DoFinish? && Judges(s, step.lastActs, step.call) && !Completes(s, step) &&
    var v := Verdict(s, step.lastActs, step.call);
    CanRequeue(WithStatus(s.run.graph, v.task, Failed), v.task, repair)
  }

  predicate Recovers(s: State, step: Step) {
    step.DoWatchdog? && Busy(s.run.status) && s.run.active.Some?
    && Retries(s.run.taskRetries, s.run.active.value) < MAX_TASK_RETRIES
  }

  predicate Progress(s: State, step: Step, repair: bool) {
    Completes(s, step) || Requeues(s, step, repair) || Recovers(s, step)
  }

  // ---------------------------------------------------------------- effect on the measure

  /** Nothing undone and no counter moved backwards. */
  ghost predicate Advances(r: Run, q: Run) {
    && SameShape(r.graph, q.graph)
    && forall i :: 0 <= i < |r.graph| ==>
         && (r.graph[i].status == Done ==> q.graph[i].status == Done)
         && q.graph[i].retryCount >= r.graph[i].retryCount
         && Retries(q.taskRetries, r.graph[i].id) >= Retries(r.taskRetries, r.graph[i].id)
  }

  /** Task i was open and finished, or spent one unit of a budget it still had. */
  ghost predicate Spends(r: Run, q: Run, i: nat)
    requires SameShape(r.graph, q.graph) && i < |r.graph|
  {
    var t, u := r.graph[i], q.graph[i];
    t.status != Done &&
    (|| u.status == Done
     || (t.retryCount < t.maxRetries && u.retryCount > t.retryCount)
     || (Retries(r.taskRetries, t.id) < MAX_TASK_RETRIES && Retries(q.taskRetries, t.id) > Retries(r.taskRetries, t.id)))
  }

  lemma {:induction false} WorkFalls(r: Run, q: Run, n: nat, spent: Option<nat>)
    requires Advances(r, q) && n <= |r.graph|
    requires spent.Some? ==> spent.value < n && Spends(r, q, spent.value)
    ensures Work(q.graph[..n], q.taskRetries) + (if spent.Some? then 1 else 0) <= Work(r.graph[..n], r.taskRetries)
  {
    if n > 0 {
      assert r.graph[..n][..n - 1] == r.graph[..n - 1] && q.graph[..n][..n - 1] == q.graph[..n - 1];
      WorkFalls(r, q, n - 1, if spent.Some? && spent.value == n - 1 then None else spent);
    }
  }

  lemma WorkAfter(r: Run, q: Run, spent: Option<nat>)
    requires Advances(r, q)
    requires spent.Some? ==> spent.value < |r.graph| && Spends(r, q, spent.value)
    ensures Work(q.graph, q.taskRetries) + (if spent.Some? then 1 else 0) <= Work(r.graph, r.taskRetries)
  {
    WorkFalls(r, q, |r.graph|, spent);
    assert r.graph[..|r.graph|] == r.graph && q.graph[..|q.graph|] == q.graph;
  }

  /** One agent event appends to the log and may fill in the report. */
  lemma DrainOneEffect(s: State, a: AgentEvent)
    requires s.worker.Working? && DrainOne(s, a).Some?
    ensures var d := DrainOne(s, a).value;
            && d.worker.Working? && d.run == s.run.(log := d.run.log) && s.run.log <= d.run.log
  {
  }

  lemma {:induction false} DrainKeepsGraph(s: State, acts: seq<AgentEvent>)
    requires s.worker.Working? && Drain(s, acts).Some?
    ensures var d := Drain(s, acts).value;
            && d.run.graph == s.run.graph && d.run.taskRetries == s.run.taskRetries
            && d.run.active == s.run.active && d.run.checks == s.run.checks
    decreases |acts|
  {
    if acts != [] {
      DrainOneEffect(s, acts[0]);
      DrainKeepsGraph(DrainOne(s, acts[0]).value, acts[1..]);
    }
  }

  ghost predicate CountersKept(r: Run, q: Run) {
    && |q.graph| == |r.graph| && q.taskRetries == r.taskRetries
    && forall i :: 0 <= i < |r.graph| ==> q.graph[i].retryCount == r.graph[i].retryCount
  }

  lemma BeginCounters(s: State, resumption: Resumption, next: Option<Task>, plan: bool)
    ensures CountersKept(s.run, Begin(s.run, resumption, next, plan).run)
  {
  }

  lemma PauseCounters(r: Run, w: Worker, call: Call)
    requires w.Working?
    ensures CountersKept(r, Pause(r, w, call))
  {
    if w.resumption.Approved? && w.resumption.cancelAfter { CancelledRunCounters(r); }
  }

  lemma AnnounceFrame(c: Run)
    ensures var q := Announce(c);
            q.graph == c.graph && q.taskRetries == c.taskRetries && q.checks == c.checks && q.started == c.started
    ensures c.log <= Announce(c).log
  {
  }

  lemma SucceedGraph(r: Run, id: Option<TaskId>)
    ensures Succeed(r, id).graph == WithStatus(r.graph, id, Done) && Succeed(r, id).taskRetries == r.taskRetries
  {
    AnnounceFrame(EmitOnce(r.(graph := WithStatus(r.graph, id, Done), active := None), TaskCompleted, id));
  }

  lemma SucceedCounters(r: Run, id: Option<TaskId>)
    ensures CountersKept(r, Succeed(r, id))
    ensures forall i :: 0 <= i < |r.graph| && id == Some(r.graph[i].id) ==> Succeed(r, id).graph[i].status == Done
  {
    SucceedGraph(r, id);
  }

  /** A requeue raises the count of the one task it is about. */
  lemma RequeueCounts(g: Graph, id: Option<TaskId>)
    requires UniqueIds(g) && Find(WithStatus(g, id, Failed), id).Some?
    ensures var f := WithStatus(g, id, Failed);
            var q := WithRetry(f, id, Find(f, id).value.retryCount + 1);
            forall i :: 0 <= i < |g| ==> q[i].retryCount == g[i].retryCount + if id == Some(g[i].id) then 1 else 0
  {
    var f := WithStatus(g, id, Failed);
    FindInGraph(f, id);
    var k :| 0 <= k < |f| && f[k] == Find(f, id).value && id == Some(f[k].id);
    assert forall i :: 0 <= i < |g| && id == Some(g[i].id) ==> i == k;
  }

  lemma FoundMayRetry(g: Graph, id: Option<TaskId>, repair: bool)
    requires UniqueIds(g) && CanRequeue(WithStatus(g, id, Failed), id, repair)
    ensures forall i :: 0 <= i < |g| && id == Some(g[i].id) ==> g[i].retryCount < g[i].maxRetries
  {
    var f := WithStatus(g, id, Failed);
    FindInGraph(f, id);
    var k :| 0 <= k < |f| && f[k] == Find(f, id).value && id == Some(f[k].id);
    assert forall i :: 0 <= i < |g| && id == Some(g[i].id) ==> i == k;
  }

  lemma FailCounters(r: Run, id: Option<TaskId>, repair: bool)
    requires UniqueIds(r.graph)
    ensures var q := FailTask(r, id, repair);
            && q.taskRetries == r.taskRetries && |q.graph| == |r.graph|
            && forall i :: 0 <= i < |r.graph| ==>
                 var bumped := CanRequeue(WithStatus(r.graph, id, Failed), id, repair) && id == Some(r.graph[i].id);
                 && q.graph[i].retryCount == r.graph[i].retryCount + (if bumped then 1 else 0)
                 && (bumped ==> r.graph[i].retryCount < r.graph[i].maxRetries)
  {
    if CanRequeue(WithStatus(r.graph, id, Failed), id, repair) {
      RequeuedGraph(r, id, repair);
      RequeueCounts(r.graph, id);
      FoundMayRetry(r.graph, id, repair);
    } else {
      FailedGraph(r, id, repair);
    }
  }

  lemma FinishCounters(s: State, acts: seq<AgentEvent>, call: Call, repair: bool)
    requires UniqueIds(s.run.graph) && !Judges(s, acts, call)
    ensures CountersKept(s.run, Finish(s, acts, call, repair).run)
  {
    if Streaming(s) && Drain(s, acts).Some? {
      DrainKeepsGraph(s, acts);
      var d := Drain(s, acts).value;
      PauseCounters(Emit(d.run, Usage, None), d.worker, call);
    }
  }

  lemma RouteCounters(s: State, step: Step, repair: bool)
    requires IsRoute(step) || step.DoRecordPackaging?
    ensures CountersKept(s.run, Apply(s, step, repair).run)
  {
    CancelRequestCounters(s);
  }

  lemma CancelRequestCounters(s: State)
    ensures CountersKept(s.run, CancelRequest(s).run)
  {
  }

  lemma CancelledRunCounters(r: Run)
    ensures CountersKept(r, CancelRun(r))
  {
  }

  lemma RaiseCounters(s: State)
    ensures CountersKept(s.run, Raise(s).run)
  {
  }

  lemma RejectCounters(s: State)
    ensures CountersKept(s.run, RejectAction(s).run)
  {
    if s.worker.Working? && s.worker.resumption.Rejected? { RejectEffect(s); }
  }

  lemma ChunkCounters(s: State, acts: seq<AgentEvent>)
    ensures CountersKept(s.run, Chunk(s, acts).run)
  {
    CancelledRunCounters(s.run);
    RaiseCounters(s);
    if Streaming(s) && s.run.status != Cancelling && Drain(s, acts).Some? { DrainKeepsGraph(s, acts); }
  }

  lemma OtherCounters(s: State, step: Step, repair: bool)
    requires UniqueIds(s.run.graph) && !Recovers(s, step)
    requires step.DoFinish? ==> !Judges(s, step.lastActs, step.call)
    ensures CountersKept(s.run, Apply(s, step, repair).run)
  {
    match step
    case DoStart => BeginCounters(s, Plain, NextTask(s.run.graph), true);
    case DoResume => BeginCounters(s, Plain, NextOnResume(s.run.graph), false);
    case DoResumeAction(resumption) => BeginCounters(s, resumption, None, false);
    case DoRejectAction => RejectCounters(s);
    case DoFinish(acts, call) => FinishCounters(s, acts, call, repair);
    case DoChunk(acts) => ChunkCounters(s, acts);
    case DoRaise => RaiseCounters(s);
    case DoWatchdog =>
    case _ => RouteCounters(s, step, repair);
  }

  /** Nothing done is ever undone. */
  lemma DoneStays(g0: Graph, s: State, step: Step, repair: bool)
    requires Inv(g0, s)
    ensures var q := Apply(s, step, repair).run;
            SameShape(s.run.graph, q.graph)
            && forall i :: 0 <= i < |q.graph| && s.run.graph[i].status == Done ==> q.graph[i].status == Done
  {
    StepKeeps(g0, s, step, repair);
    LogGrows(s, step, repair);
  }

  lemma {:induction false} DrainGrows(s: State, acts: seq<AgentEvent>)
    requires s.worker.Working? && Drain(s, acts).Some?
    ensures s.run.log <= Drain(s, acts).value.run.log
    decreases |acts|
  {
    if acts != [] {
      DrainOneEffect(s, acts[0]);
      DrainGrows(DrainOne(s, acts[0]).value, acts[1..]);
    }
  }

  lemma BeginGrows(r: Run, resumption: Resumption, next: Option<Task>, plan: bool)
    ensures r.log <= Begin(r, resumption, next, plan).run.log
  {
  }

  lemma SucceedGrows(r: Run, id: Option<TaskId>)
    ensures r.log <= Succeed(r, id).log
  {
    var f := r.(graph := WithStatus(r.graph, id, Done), active := None);
    EmitOnceLog(f, TaskCompleted, id);
    AnnounceFrame(EmitOnce(f, TaskCompleted, id));
  }

  lemma FailGrows(r: Run, id: Option<TaskId>, repair: bool)
    ensures r.log <= FailTask(r, id, repair).log
  {
    FailLog(r, id, repair);
  }

  lemma CancelRunGrows(r: Run)
    ensures r.log <= CancelRun(r).log
  {
    EmitOnceLog(r.(graph := WithStatus(r.graph, r.active, Cancelled)), TaskCancelled, r.active);
  }

  lemma PauseGrows(r: Run, w: Worker, call: Call)
    requires w.Working?
    ensures r.log <= Pause(r, w, call).log
  {
    if w.resumption.Approved? && w.resumption.cancelAfter { CancelRunGrows(r); }
  }

  lemma ConcludeGrows(r: Run, w: Worker, call: Call, repair: bool)
    requires w.Working?
    ensures r.log <= Conclude(r, w, call, repair).log
  {
    if Judging(w, call) {
      SucceedGrows(r, JudgedTask(r, w));
      FailGrows(r, JudgedTask(r, w), repair);
    } else {
      PauseGrows(r, w, call);
    }
  }

  lemma RaiseGrows(s: State)
    ensures s.run.log <= Raise(s).run.log
  {
  }

  lemma CancelGrows(s: State)
    ensures s.run.log <= CancelRequest(s).run.log
  {
  }

  lemma RejectGrows(s: State)
    ensures s.run.log <= RejectAction(s).run.log
  {
  }

  lemma WatchdogGrows(s: State)
    ensures s.run.log <= Watchdog(s).run.log
  {
  }

  lemma ChunkGrows(s: State, acts: seq<AgentEvent>)
    ensures s.run.log <= Chunk(s, acts).run.log
  {
    if Streaming(s) {
      if s.run.status == Cancelling {
        CancelRunGrows(s.run);
      } else if Drain(s, acts).None? {
        RaiseGrows(s);
      } else {
        DrainGrows(s, acts);
      }
    }
  }

  lemma FinishGrows(s: State, acts: seq<AgentEvent>, call: Call, repair: bool)
    ensures s.run.log <= Finish(s, acts, call, repair).run.log
  {
    RaiseGrows(s);
    if Streaming(s) && Drain(s, acts).Some? {
      var d := Drain(s, acts).value;
      DrainGrows(s, acts);
      ConcludeGrows(Emit(d.run, Usage, None), d.worker, call, repair);
    }
  }

  /** The event log is append-only. */
  lemma LogGrows(s: State, step: Step, repair: bool)
    ensures s.run.log <= Apply(s, step, repair).run.log
  {
    match step
    case DoStart => BeginGrows(s.run, Plain, NextTask(s.run.graph), true);
    case DoResume => BeginGrows(s.run, Plain, NextOnResume(s.run.graph), false);
    case DoResumeAction(resumption) => BeginGrows(s.run, resumption, None, false);
    case DoChunk(acts) => ChunkGrows(s, acts);
    case DoFinish(acts, call) => FinishGrows(s, acts, call, repair);
    case DoRejectAction => RejectGrows(s);
    case DoRaise => RaiseGrows(s);
    case DoWatchdog => WatchdogGrows(s);
    case DoCancelRequest => CancelGrows(s);
    case _ =>
  }

  lemma RecoveryAdvances(s: State, i: nat)
    requires Recovers(s, DoWatchdog) && i < |s.run.graph| && s.run.graph[i].status != Done
    requires s.run.graph[i].id == s.run.active.value && UniqueIds(s.run.graph)
    ensures Advances(s.run, Watchdog(s).run) && Spends(s.run, Watchdog(s).run, i)
  {
    assert Watchdog(s).run.graph == WithStatus(s.run.graph, s.run.active, Pending);
  }

  lemma RecoveryWork(g0: Graph, s: State)
    requires Inv(g0, s) && Recovers(s, DoWatchdog)
    ensures var q := Watchdog(s).run;
            Work(q.graph, q.taskRetries) + 1 <= Work(s.run.graph, s.run.taskRetries)
  {
    var r, q := s.run, Watchdog(s).run;
    var i :| 0 <= i < |r.graph| && r.graph[i].id == r.active.value && r.graph[i].status != Done;
    RecoveryAdvances(s, i);
    WorkAfter(r, q, Some(i));
  }

  /** Judging a report, at the level of the stored run. */
  lemma OutcomeWork(r: Run, id: Option<TaskId>, success: bool, repair: bool)
    requires UniqueIds(r.graph) && (id.Some? ==> Live(r.graph, id.value))
    requires var q := TaskOutcome(r, id, success, repair);
             SameShape(r.graph, q.graph)
             && forall i :: 0 <= i < |q.graph| && r.graph[i].status == Done ==> q.graph[i].status == Done
    ensures var q := TaskOutcome(r, id, success, repair);
            var progress := (success && AcceptanceGate(r.checks, id))
                            || CanRequeue(WithStatus(r.graph, id, Failed), id, repair);
            Work(q.graph, q.taskRetries) + (if progress then 1 else 0) <= Work(r.graph, r.taskRetries)
  {
    var q, g := TaskOutcome(r, id, success, repair), WithStatus(r.graph, id, Failed);
    var completes := success && AcceptanceGate(r.checks, id);
    if completes { SucceedCounters(r, id); } else { FailCounters(r, id, repair); }
    if id.Some? {
      var i :| 0 <= i < |r.graph| && r.graph[i].id == id.value && r.graph[i].status != Done;
      WorkAfter(r, q, if completes || CanRequeue(g, id, repair) then Some(i) else None);
    } else {
      assert Find(g, id).None? by {
        if Find(g, id).Some? { FindInGraph(g, id); }
      }
      WorkAfter(r, q, None);
    }
  }

  /** Judging comes down to the outcome of the task, on a run that has only gained events. */
  lemma JudgedOutcome(s: State, step: Step, repair: bool) returns (d: Run)
    requires step.DoFinish? && Judges(s, step.lastActs, step.call)
    ensures var v := Verdict(s, step.lastActs, step.call);
            Apply(s, step, repair).run == TaskOutcome(d, v.task, v.success, repair)
    ensures d.graph == s.run.graph && d.taskRetries == s.run.taskRetries && d.checks == s.run.checks
    ensures d == Emit(Drain(s, step.lastActs).value.run, Usage, None)
  {
    DrainKeepsGraph(s, step.lastActs);
    d := Emit(Drain(s, step.lastActs).value.run, Usage, None);
  }

  lemma JudgedIsLive(g0: Graph, s: State, step: Step)
    requires Inv(g0, s) && step.DoFinish? && Judges(s, step.lastActs, step.call)
    ensures var v := Verdict(s, step.lastActs, step.call); v.task.Some? ==> Live(s.run.graph, v.task.value)
  {
    DrainKeeps(g0, s, step.lastActs);
    DrainKeepsGraph(s, step.lastActs);
  }

  lemma JudgedWork(g0: Graph, s: State, step: Step, repair: bool)
    requires Inv(g0, s) && step.DoFinish? && Judges(s, step.lastActs, step.call)
    ensures var q := Apply(s, step, repair).run;
            Work(q.graph, q.taskRetries) + (if Progress(s, step, repair) then 1 else 0)
            <= Work(s.run.graph, s.run.taskRetries)
  {
    var v := Verdict(s, step.lastActs, step.call);
    DoneStays(g0, s, step, repair);
    JudgedIsLive(g0, s, step);
    var d := JudgedOutcome(s, step, repair);
    OutcomeWork(d, v.task, v.success, repair);
  }

  lemma OtherWork(s: State, step: Step, repair: bool)
    requires UniqueIds(s.run.graph) && !Recovers(s, step)
    requires step.DoFinish? ==> !Judges(s, step.lastActs, step.call)
    requires var q := Apply(s, step, repair).run;
             SameShape(s.run.graph, q.graph)
             && forall i :: 0 <= i < |q.graph| && s.run.graph[i].status == Done ==> q.graph[i].status == Done
    ensures var q := Apply(s, step, repair).run;
            Work(q.graph, q.taskRetries) <= Work(s.run.graph, s.run.taskRetries)
  {
    OtherCounters(s, step, repair);
    WorkAfter(s.run, Apply(s, step, repair).run, None);
  }

  /** No transaction adds work; every completion, requeue and recovery removes some. */
  lemma StepWork(g0: Graph, s: State, step: Step, repair: bool)
    requires Inv(g0, s)
    ensures var q := Apply(s, step, repair).run;
            Work(q.graph, q.taskRetries) + (if Progress(s, step, repair) then 1 else 0)
            <= Work(s.run.graph, s.run.taskRetries)
  {
    if step.DoWatchdog? && Recovers(s, step) {
      RecoveryWork(g0, s);
    } else if step.DoFinish? && Judges(s, step.lastActs, step.call) {
      JudgedWork(g0, s, step, repair);
    } else {
      IdleWork(g0, s, step, repair);
    }
  }

  lemma IdleWork(g0: Graph, s: State, step: Step, repair: bool)
    requires Inv(g0, s) && !Recovers(s, step) && (step.DoFinish? ==> !Judges(s, step.lastActs, step.call))
    ensures !Progress(s, step, repair)
    ensures var q := Apply(s, step, repair).run;
            Work(q.graph, q.taskRetries) <= Work(s.run.graph, s.run.taskRetries)
  {
    NoProgress(s, step, repair);
    DoneStays(g0, s, step, repair);
    OtherWork(s, step, repair);
  }

  lemma NoProgress(s: State, step: Step, repair: bool)
    requires !Recovers(s, step) && (step.DoFinish? ==> !Judges(s, step.lastActs, step.call))
    ensures !Progress(s, step, repair)
  {
  }

  // ---------------------------------------------------------------- whole runs

  function ProgressSteps(s: State, steps: seq<Step>, repair: bool): nat
    decreases |steps|
  {
    if steps == [] then 0
    else
      var front := steps[..|steps| - 1];
      ProgressSteps(s, front, repair)
      + (if Progress(Execute(s, front, repair), steps[|steps| - 1], repair) then 1 else 0)
  }

  lemma {:induction false} ProgressPaysWork(s: State, steps: seq<Step>, repair: bool)
    requires Unstarted(s)
    ensures var r := Execute(s, steps, repair).run;
            ProgressSteps(s, steps, repair) + Work(r.graph, r.taskRetries) <= Work(s.run.graph, s.run.taskRetries)
    decreases |steps|
  {
    if steps != [] {
      var front := steps[..|steps| - 1];
      ProgressPaysWork(s, front, repair);
      RunKeeps(s, front, repair);
      StepWork(s.run.graph, Execute(s, front, repair), steps[|steps| - 1], repair);
    }
  }

  function SumMaxRetries(g: Graph): nat {
    if g == [] then 0 else SumMaxRetries(g[..|g| - 1]) + Left(g[|g| - 1].maxRetries, 0)
  }

  lemma {:induction false} InitialWork(g: Graph)
    requires forall i :: 0 <= i < |g| ==> g[i].retryCount >= 0
    ensures Work(g, map[]) <= 3 * |g| + SumMaxRetries(g)
  {
    if g != [] { InitialWork(g[..|g| - 1]); }
  }

  /**
   Bounded work: a run makes at most as many completions, requeues and recoveries as its open
   tasks have work left, hence at most 3 n plus the sum of the n tasks' retry budgets, whatever
   the agent, the watchdog and the users do.
   */
  lemma BoundedWork(s: State, steps: seq<Step>, repair: bool)
    requires Unstarted(s)
    requires forall i :: 0 <= i < |s.run.graph| ==> s.run.graph[i].retryCount >= 0
    ensures ProgressSteps(s, steps, repair) <= Work(s.run.graph, map[])
    ensures ProgressSteps(s, steps, repair) <= 3 * |s.run.graph| + SumMaxRetries(s.run.graph)
  {
    ProgressPaysWork(s, steps, repair);
    InitialWork(s.run.graph);
  }

  // ---------------------------------------------------------------- requeues alone

  /** What is left of the tasks' own retry budgets. */
  function RetriesLeft(g: Graph): nat {
    if g == [] then 0 else RetriesLeft(g[..|g| - 1]) + Left(g[|g| - 1].maxRetries, g[|g| - 1].retryCount)
  }

  /** No retry count falls, and that of the task at `spent` has risen within its budget. */
  ghost predicate RetriesAdvance(g: Graph, h: Graph, spent: Option<nat>) {
    && SameShape(g, h) && (forall i :: 0 <= i < |g| ==> h[i].retryCount >= g[i].retryCount)
    && (spent.Some? ==> spent.value < |g| && g[spent.value].retryCount < g[spent.value].maxRetries
                        && h[spent.value].retryCount > g[spent.value].retryCount)
  }

  lemma {:induction false} RetriesFall(g: Graph, h: Graph, spent: Option<nat>)
    requires RetriesAdvance(g, h, spent)
    ensures RetriesLeft(h) + (if spent.Some? then 1 else 0) <= RetriesLeft(g)
  {
    if g != [] {
      RetriesFall(g[..|g| - 1], h[..|h| - 1], if spent == Some(|g| - 1) then None else spent);
    }
  }

  lemma CompletedRetries(r: Run, id: Option<TaskId>)
    requires SameShape(r.graph, Succeed(r, id).graph)
    ensures RetriesLeft(Succeed(r, id).graph) <= RetriesLeft(r.graph)
  {
    SucceedCounters(r, id);
    RetriesFall(r.graph, Succeed(r, id).graph, None);
  }

  lemma FailedRetries(r: Run, id: Option<TaskId>, repair: bool)
    requires UniqueIds(r.graph) && SameShape(r.graph, FailTask(r, id, repair).graph)
    ensures RetriesLeft(FailTask(r, id, repair).graph)
            + (if CanRequeue(WithStatus(r.graph, id, Failed), id, repair) then 1 else 0) <= RetriesLeft(r.graph)
  {
    FailCounters(r, id, repair);
    if CanRequeue(WithStatus(r.graph, id, Failed), id, repair) {
      var i := RequeuedIndex(r.graph, id);
      RetriesFall(r.graph, FailTask(r, id, repair).graph, Some(i));
    } else {
      RetriesFall(r.graph, FailTask(r, id, repair).graph, None);
    }
  }

  lemma RequeuedIndex(g: Graph, id: Option<TaskId>) returns (i: nat)
    requires UniqueIds(g) && Find(WithStatus(g, id, Failed), id).Some?
    ensures i < |g| && id == Some(g[i].id)
  {
    var f := WithStatus(g, id, Failed);
    FindInGraph(f, id);
    i :| 0 <= i < |f| && f[i] == Find(f, id).value && id == Some(f[i].id);
  }

  lemma JudgedRetries(r: Run, id: Option<TaskId>, success: bool, repair: bool)
    requires UniqueIds(r.graph)
    requires SameShape(r.graph, TaskOutcome(r, id, success, repair).graph)
    ensures var requeued := !(success && AcceptanceGate(r.checks, id)) && CanRequeue(WithStatus(r.graph, id, Failed), id, repair);
            RetriesLeft(TaskOutcome(r, id, success, repair).graph) + (if requeued then 1 else 0) <= RetriesLeft(r.graph)
  {
    if success && AcceptanceGate(r.checks, id) { CompletedRetries(r, id); } else { FailedRetries(r, id, repair); }
  }

  lemma JudgedStepRetries(g0: Graph, s: State, step: Step, repair: bool)
    requires Inv(g0, s) && step.DoFinish? && Judges(s, step.lastActs, step.call)
    ensures RetriesLeft(Apply(s, step, repair).run.graph) + (if Requeues(s, step, repair) then 1 else 0)
            <= RetriesLeft(s.run.graph)
  {
    DoneStays(g0, s, step, repair);
    var v := Verdict(s, step.lastActs, step.call);
    var d := JudgedOutcome(s, step, repair);
    JudgedRetries(d, v.task, v.success, repair);
  }

  /** Every requeue spends one retry of a task, and no step gives one back. */
  lemma StepRetries(g0: Graph, s: State, step: Step, repair: bool)
    requires Inv(g0, s)
    ensures RetriesLeft(Apply(s, step, repair).run.graph) + (if Requeues(s, step, repair) then 1 else 0)
            <= RetriesLeft(s.run.graph)
  {
    if step.DoFinish? && Judges(s, step.lastActs, step.call) {
      JudgedStepRetries(g0, s, step, repair);
    } else {
      assert !Requeues(s, step, repair);
      UnjudgedRetries(g0, s, step, repair);
    }
  }

  lemma UnjudgedRetries(g0: Graph, s: State, step: Step, repair: bool)
    requires Inv(g0, s) && (step.DoFinish? ==> !Judges(s, step.lastActs, step.call))
    ensures RetriesLeft(Apply(s, step, repair).run.graph) <= RetriesLeft(s.run.graph)
  {
    DoneStays(g0, s, step, repair);
    if Recovers(s, step) {
      RetriesFall(s.run.graph, WithStatus(s.run.graph, s.run.active, Pending), None);
    } else {
      OtherCounters(s, step, repair);
      RetriesFall(s.run.graph, Apply(s, step, repair).run.graph, None);
    }
  }

  function RequeueSteps(s: State, steps: seq<Step>, repair: bool): nat
    decreases |steps|
  {
    if steps == [] then 0
    else
      var front := steps[..|steps| - 1];
      RequeueSteps(s, front, repair) + (if Requeues(Execute(s, front, repair), steps[|steps| - 1], repair) then 1 else 0)
  }

  lemma {:induction false} RequeuesSpendRetries(s: State, steps: seq<Step>, repair: bool)
    requires Unstarted(s)
    ensures RequeueSteps(s, steps, repair) + RetriesLeft(Execute(s, steps, repair).run.graph) <= RetriesLeft(s.run.graph)
    decreases |steps|
  {
    if steps != [] {
      var front := steps[..|steps| - 1];
      RequeuesSpendRetries(s, front, repair);
      RunKeeps(s, front, repair);
      StepRetries(s.run.graph, Execute(s, front, repair), steps[|steps| - 1], repair);
    }
  }
}
