/** Every transaction of a run keeps the invariant, hence so does every run. */
module RunInvariant {
  import opened Wrappers
  import opened TaskGraph
  import opened RunModel
  import opened RunSafety

  lemma WithStatusRetasks(g: Graph, t: TaskId, status: Status)
    ensures Retasked(g, WithStatus(g, Some(t), status), t, status)
  {
  }

  lemma NextIsLive(r: Run, t: Task)
    requires FocusOk(r)
    requires NextTask(r.graph) == Some(t) || NextOnResume(r.graph) == Some(t)
    ensures Live(r.graph, t.id) && (t.status == Pending || t.status == InProgress)
    ensures t.status == InProgress ==> OnlyInProgress(r.graph, Some(t.id))
    ensures t.status == InProgress ==> t in r.graph
  {
    var i :| 0 <= i < |r.graph| && r.graph[i] == t;
  }

  // ---------------------------------------------------------------- edits of one task

  /** The step gave task `t` another undone status and logged quiet events, and left the checks alone. */
  ghost predicate Edits(r: Run, q: Run, t: TaskId, status: Status, es: seq<Event>) {
    && Retasked(r.graph, q.graph, t, status) && status !in {Done, Blocked}
    && q.checks == r.checks && q.log == r.log + es && Quiet(es)
    && (status in {Failed, Cancelled} ==> Gave(q.log, t))
    && (q.active == Some(t) || (q.active.None? && status != InProgress))
    && q.status != RunSucceeded && (r.started ==> q.started)
  }

  lemma EditKeeps(g0: Graph, r: Run, q: Run, t: TaskId, status: Status, es: seq<Event>)
    requires Core(g0, r) && Live(r.graph, t) && (OnlyInProgress(r.graph, Some(t)) || OnlyInProgress(r.graph, None))
    requires Edits(r, q, t, status, es) && (r.started || q.started)
    ensures Core(g0, q)
    ensures forall x :: Live(r.graph, x) ==> Live(q.graph, x)
    ensures OnlyInProgress(r.graph, Some(t)) ==> OnlyInProgress(q.graph, Some(t))
  {
    RetaskStep(g0, r, q, t, status, es);
    RetaskKeepsFocus(r.graph, q.graph, t, status);
  }

  /** What holds of the active task of a run. */
  lemma ActiveIsLive(g0: Graph, r: Run)
    requires Core(g0, r) && r.active.Some?
    ensures r.started && Live(r.graph, r.active.value) && OnlyInProgress(r.graph, r.active)
  {
  }

  /** Halting or requeueing a task leaves a report as good as it was. */
  lemma EditKeepsReport(s: State, q: Run, t: TaskId, status: Status, es: seq<Event>)
    requires ReportOk(s) && Edits(s.run, q, t, status, es) && status != InProgress
    requires forall x :: Live(s.run.graph, x) ==> Live(q.graph, x)
    ensures ReportOk(State(q, s.worker))
  {
  }

  // ---------------------------------------------------------------- beginning a handler

  lemma CancelRunEdits(r: Run) returns (es: seq<Event>)
    requires r.active.Some?
    ensures Edits(r, CancelRun(r), r.active.value, Cancelled, es)
  {
    WithStatusRetasks(r.graph, r.active.value, Cancelled);
    es := Once(r.log, TaskCancelled, r.active) + [Event(RunCancelledEvent, None)];
    EmitOnceLog(r, TaskCancelled, r.active);
    assert CancelRun(r).log == r.log + es;
    assert Event(TaskCancelled, r.active) in r.log + Once(r.log, TaskCancelled, r.active);
  }

  lemma CancelRunKeeps(g0: Graph, r: Run)
    requires Core(g0, r) && r.started
    ensures Core(g0, CancelRun(r))
  {
    if r.active.Some? {
      ActiveIsLive(g0, r);
      var es := CancelRunEdits(r);
      EditKeeps(g0, r, CancelRun(r), r.active.value, Cancelled, es);
    } else {
      QuietStep(g0, r, CancelRun(r), [Event(RunCancelledEvent, None)]);
    }
  }

  /** Which task a handler may put in progress: live, and no other one is in progress. */
  ghost predicate MayFocus(r: Run, next: Option<Task>) {
    next.Some? ==> Live(r.graph, next.value.id)
                   && (OnlyInProgress(r.graph, Some(next.value.id)) || OnlyInProgress(r.graph, None))
  }

  lemma BeginEdits(r: Run, resumption: Resumption, next: Task, plan: bool) returns (es: seq<Event>)
    requires r.status != Cancelling
    ensures Edits(r, Begin(r, resumption, Some(next), plan).run, next.id, InProgress, es)
  {
    var id := Some(next.id);
    var f := r.(status := Running, started := true, active := id, graph := WithStatus(r.graph, id, InProgress));
    var p := if plan then Emit(f, SupervisorPlan, id) else f;
    var planned := if plan then [Event(SupervisorPlan, id)] else [];
    WithStatusRetasks(r.graph, next.id, InProgress);
    assert p.log == r.log + planned;
    EmitOnceLog(p, TaskStarted, id);
    es := planned + Once(p.log, TaskStarted, id) + [Event(RunStartedEvent, None)];
    assert Begin(r, resumption, Some(next), plan).run == Emit(EmitOnce(p, TaskStarted, id), RunStartedEvent, None);
    assert Begin(r, resumption, Some(next), plan).run.log == r.log + es;
  }

  lemma BeginKeeps(g0: Graph, s: State, resumption: Resumption, next: Option<Task>, plan: bool)
    requires Inv(g0, s) && MayFocus(s.run, next) && !Terminal(s.run.status)
    ensures Inv(g0, Begin(s.run, resumption, next, plan))
  {
    var r, t := s.run, Begin(s.run, resumption, next, plan);
    if r.status == Cancelling {
      CancelRunKeeps(g0, r);
    } else if next.Some? {
      var es := BeginEdits(r, resumption, next.value, plan);
      EditKeeps(g0, r, t.run, next.value.id, InProgress, es);
    } else {
      QuietStep(g0, r, t.run, [Event(RunStartedEvent, None)]);
    }
  }

  lemma StartKeeps(g0: Graph, s: State)
    requires Inv(g0, s)
    ensures Inv(g0, Start(s))
  {
    if s.worker.Idle? && !s.run.started && !Terminal(s.run.status) {
      var next := NextTask(s.run.graph);
      if next.Some? { NextIsLive(s.run, next.value); }
      BeginKeeps(g0, s, Plain, next, true);
    }
  }

  lemma ResumeKeeps(g0: Graph, s: State)
    requires Inv(g0, s)
    ensures Inv(g0, Resume(s))
  {
    if s.worker.Idle? && MayResume(s.run) && !Terminal(s.run.status) {
      var next := NextOnResume(s.run.graph);
      if next.Some? { NextIsLive(s.run, next.value); }
      BeginKeeps(g0, s, Plain, next, false);
    }
  }

  lemma ResumeActionKeeps(g0: Graph, s: State, resumption: Resumption)
    requires Inv(g0, s)
    ensures Inv(g0, ResumeAction(s, resumption))
  {
    if s.worker.Idle? && s.run.started && !Terminal(s.run.status) {
      BeginKeeps(g0, s, resumption, None, false);
    }
  }

  function RejectEvents(r: Run, cancelled: bool): seq<Event> {
    var head := [Event(TaskReport, r.active)];
    head
    + (if r.active.Some? then Once(r.log + head, if cancelled then TaskCancelled else TaskFailed, r.active) else [])
    + [Event(FinalReport, None), Event(if cancelled then RunCancelledEvent else RunFailedEvent, r.active)]
  }

  lemma RejectEffect(s: State)
    requires s.worker.Working? && s.worker.resumption.Rejected?
    ensures RejectAction(s).worker == Idle
    ensures var cancelled := s.worker.resumption.cancelAfter;
            RejectAction(s).run == s.run.(
              graph := WithStatus(s.run.graph, s.run.active, if cancelled then Cancelled else Failed),
              active := None,
              status := if cancelled then RunCancelled else RunFailed,
              log := s.run.log + RejectEvents(s.run, cancelled))
  {
    var r, cancelled := s.run, s.worker.resumption.cancelAfter;
    var kind := if cancelled then TaskCancelled else TaskFailed;
    var m := Emit(r, TaskReport, r.active).(graph := WithStatus(r.graph, r.active, if cancelled then Cancelled else Failed));
    EmitOnceLog(m, kind, r.active);
    assert RejectAction(s).run.log == r.log + RejectEvents(r, cancelled);
    if r.active.None? { assert WithStatus(r.graph, r.active, Failed) == r.graph == WithStatus(r.graph, r.active, Cancelled); }
  }

  lemma RejectEdits(s: State)
    requires s.worker.Working? && s.worker.resumption.Rejected? && s.run.active.Some?
    ensures var cancelled := s.worker.resumption.cancelAfter;
            Edits(s.run, RejectAction(s).run, s.run.active.value, if cancelled then Cancelled else Failed, RejectEvents(s.run, cancelled))
  {
    var r, cancelled := s.run, s.worker.resumption.cancelAfter;
    RejectEffect(s);
    WithStatusRetasks(r.graph, r.active.value, if cancelled then Cancelled else Failed);
    RejectEventsGive(r, cancelled);
  }

  lemma RejectEventsGive(r: Run, cancelled: bool)
    requires r.active.Some?
    ensures Quiet(RejectEvents(r, cancelled)) && Gave(r.log + RejectEvents(r, cancelled), r.active.value)
  {
    var head, kind := [Event(TaskReport, r.active)], if cancelled then TaskCancelled else TaskFailed;
    var once := Once(r.log + head, kind, r.active);
    if once != [] {
      assert RejectEvents(r, cancelled)[1] == Event(kind, r.active);
    }
  }

  lemma RejectActionKeeps(g0: Graph, s: State)
    requires Inv(g0, s)
    ensures Inv(g0, RejectAction(s))
  {
    if s.worker.Working? && s.worker.resumption.Rejected? {
      var r, cancelled := s.run, s.worker.resumption.cancelAfter;
      RejectEffect(s);
      if r.active.Some? {
        ActiveIsLive(g0, r);
        RejectEdits(s);
        EditKeeps(g0, r, RejectAction(s).run, r.active.value, if cancelled then Cancelled else Failed, RejectEvents(r, cancelled));
      } else {
        RejectNobodyKeeps(g0, s);
      }
    }
  }

  lemma RejectNobodyKeeps(g0: Graph, s: State)
    requires Inv(g0, s) && s.worker.Working? && s.worker.resumption.Rejected? && s.run.active.None?
    ensures Inv(g0, RejectAction(s))
  {
    RejectEffect(s);
    assert WithStatus(s.run.graph, None, Failed) == s.run.graph == WithStatus(s.run.graph, None, Cancelled);
    QuietStep(g0, s.run, RejectAction(s).run, RejectEvents(s.run, s.worker.resumption.cancelAfter));
  }

  // ---------------------------------------------------------------- streaming and finishing

  lemma DrainOneKeeps(g0: Graph, s: State, a: AgentEvent)
    requires Inv(g0, s) && s.worker.Working? && DrainOne(s, a).Some?
    ensures Inv(g0, DrainOne(s, a).value)
    ensures DrainOne(s, a).value.run.graph == s.run.graph && DrainOne(s, a).value.run.active == s.run.active
  {
    var r, d := s.run, DrainOne(s, a).value;
    match a
    case StartTool => ToolStep(g0, r);
    case OtherTool => QuietStep(g0, r, d.run, [Event(ToolOther, r.active)]);
    case CompleteTask(success) =>
      QuietStep(g0, r, d.run, [Event(TaskReport, r.active)]);
    case AskQuestion => QuietStep(g0, r, d.run, [Event(QuestionRaised, None)]);
    case OtherActivity => QuietStep(g0, r, d.run, [Event(Activity, None)]);
  }

  lemma {:induction false} DrainKeeps(g0: Graph, s: State, acts: seq<AgentEvent>)
    requires Inv(g0, s) && s.worker.Working? && Drain(s, acts).Some?
    ensures Inv(g0, Drain(s, acts).value)
    decreases |acts|
  {
    if acts != [] {
      DrainOneKeeps(g0, s, acts[0]);
      DrainKeeps(g0, DrainOne(s, acts[0]).value, acts[1..]);
    }
  }

  lemma RaiseEdits(s: State) returns (es: seq<Event>)
    requires !(s.worker.Idle? && Terminal(s.run.status)) && s.run.active.Some?
    ensures Edits(s.run, Raise(s).run, s.run.active.value, Failed, es)
  {
    var r := s.run;
    WithStatusRetasks(r.graph, r.active.value, Failed);
    EmitOnceLog(r.(graph := WithStatus(r.graph, r.active, Failed)), TaskFailed, r.active);
    es := Once(r.log, TaskFailed, r.active) + [Event(RunFailedEvent, r.active)];
    assert Raise(s).run.log == r.log + es;
    assert Event(TaskFailed, r.active) in r.log + Once(r.log, TaskFailed, r.active);
  }

  lemma RaiseKeeps(g0: Graph, s: State)
    requires Inv(g0, s)
    ensures Inv(g0, Raise(s))
  {
    if !(s.worker.Idle? && Terminal(s.run.status)) {
      if s.run.active.Some? {
        ActiveIsLive(g0, s.run);
        var es := RaiseEdits(s);
        EditKeeps(g0, s.run, Raise(s).run, s.run.active.value, Failed, es);
      } else {
        QuietStep(g0, s.run, Raise(s).run, [Event(RunFailedEvent, None)]);
      }
    }
  }

  lemma ChunkKeeps(g0: Graph, s: State, acts: seq<AgentEvent>)
    requires Inv(g0, s)
    ensures Inv(g0, Chunk(s, acts))
  {
    if Streaming(s) {
      if s.run.status == Cancelling {
        CancelRunKeeps(g0, s.run);
      } else if Drain(s, acts).None? {
        RaiseKeeps(g0, s);
      } else {
        DrainKeeps(g0, s, acts);
        var d := Drain(s, acts).value;
        QuietStep(g0, d.run, Emit(d.run, MessageDelta, None), [Event(MessageDelta, None)]);
      }
    }
  }

  lemma SucceedKeeps(g0: Graph, r: Run, t: TaskId)
    requires Core(g0, r) && r.started && Live(r.graph, t) && OnlyInProgress(r.graph, Some(t))
    requires AcceptanceGate(r.checks, Some(t))
    ensures Core(g0, Succeed(r, Some(t)))
  {
    var id := Some(t);
    var f := r.(graph := WithStatus(r.graph, id, Done), active := None);
    WithStatusRetasks(r.graph, t, Done);
    var c := f.(status := Queued, log := r.log + [Event(TaskCompleted, id)]);
    CompleteStep(g0, r, c, t);
    assert Event(TaskCompleted, id) !in r.log;
    AnnounceKeeps(g0, c);
    assert Succeed(r, id) == Announce(Emit(f, TaskCompleted, id));
    AnnounceSetsStatus(Emit(f, TaskCompleted, id));
  }

  lemma AnnounceSetsStatus(c: Run)
    ensures Announce(c) == Announce(c.(status := Queued))
  {
  }

  lemma AnnounceKeeps(g0: Graph, c: Run)
    requires Core(g0, c) && c.started && OnlyInProgress(c.graph, None) && c.active.None? && c.status == Queued
    requires c.graph != []
    ensures Core(g0, Announce(c))
  {
    if NextTask(c.graph).Some? {
      QueueNextKeeps(g0, c, NextTask(c.graph).value);
    } else if IsComplete(c.graph) {
      AllDoneKeeps(g0, c);
    } else {
      DeadlockStep(g0, c);
    }
  }

  lemma QueueNextKeeps(g0: Graph, c: Run, next: Task)
    requires Core(g0, c) && c.started && OnlyInProgress(c.graph, None) && c.active.None? && c.status == Queued
    requires NextTask(c.graph) == Some(next)
    ensures Core(g0, Emit(c.(active := Some(next.id)), RunQueuedEvent, Some(next.id)))
  {
    NextIsLive(c, next);
    QuietStep(g0, c, Emit(c, RunQueuedEvent, Some(next.id)), [Event(RunQueuedEvent, Some(next.id))]);
  }

  lemma AllDoneKeeps(g0: Graph, c: Run)
    requires Core(g0, c) && c.started && IsComplete(c.graph) && c.graph != [] && c.status == Queued
    ensures Core(g0, EmitAll(c.(status := RunSucceeded), [SupervisorComplete, FinalReport, RunCompletedEvent, MessageDelta]))
  {
    var kinds := [SupervisorComplete, FinalReport, RunCompletedEvent, MessageDelta];
    QuietStep(g0, c, EmitAll(c, kinds), EmitAll(c, kinds).log[|c.log|..]);
  }

  lemma FindInGraph(g: Graph, id: Option<TaskId>)
    requires UniqueIds(g) && Find(g, id).Some?
    ensures exists i :: 0 <= i < |g| && g[i] == Find(g, id).value && id == Some(g[i].id)
  {
    assert Find(g, id).value in g[0..];
  }

  /** What a failed task appends to the log. */
  function FailEvents(r: Run, id: Option<TaskId>, requeued: bool): seq<Event> {
    if requeued then Once(r.log, TaskRetrying, id)
    else Once(r.log, TaskFailed, id) + [Event(FinalReport, None), Event(RunFailedEvent, id)]
  }

  lemma FailLog(r: Run, id: Option<TaskId>, repair: bool)
    ensures FailTask(r, id, repair).log == r.log + FailEvents(r, id, CanRequeue(WithStatus(r.graph, id, Failed), id, repair))
  {
    var f := r.(graph := WithStatus(r.graph, id, Failed), active := None);
    EmitOnceLog(f, TaskRetrying, id);
    EmitOnceLog(f, TaskFailed, id);
  }

  lemma FailFields(r: Run, id: Option<TaskId>, repair: bool)
    ensures var q := FailTask(r, id, repair);
            && q.active.None? && q.checks == r.checks && q.started == r.started
            && q.status == if CanRequeue(WithStatus(r.graph, id, Failed), id, repair) then Queued else RunFailed
  {
  }

  lemma RequeuedGraph(r: Run, id: Option<TaskId>, repair: bool)
    requires CanRequeue(WithStatus(r.graph, id, Failed), id, repair)
    ensures var g := WithStatus(r.graph, id, Failed);
            && FailTask(r, id, repair).taskRetries == r.taskRetries
            && FailTask(r, id, repair).graph == WithRetry(g, id, Find(g, id).value.retryCount + 1)
  {
  }

  lemma FailedGraph(r: Run, id: Option<TaskId>, repair: bool)
    requires !CanRequeue(WithStatus(r.graph, id, Failed), id, repair)
    ensures FailTask(r, id, repair).taskRetries == r.taskRetries && FailTask(r, id, repair).graph == WithStatus(r.graph, id, Failed)
  {
  }

  lemma FailGraphs(r: Run, id: Option<TaskId>, repair: bool)
    ensures var g := WithStatus(r.graph, id, Failed);
            && FailTask(r, id, repair).taskRetries == r.taskRetries
            && FailTask(r, id, repair).graph
               == if CanRequeue(g, id, repair) then WithRetry(g, id, Find(g, id).value.retryCount + 1) else g
  {
    if CanRequeue(WithStatus(r.graph, id, Failed), id, repair) {
      RequeuedGraph(r, id, repair);
    } else {
      FailedGraph(r, id, repair);
    }
  }

  lemma RetryRetasks(g: Graph, id: TaskId, count: int)
    ensures Retasked(g, WithRetry(WithStatus(g, Some(id), Failed), Some(id), count), id, Pending)
  {
  }

  lemma RequeueRetasks(r: Run, id: TaskId, repair: bool)
    requires CanRequeue(WithStatus(r.graph, Some(id), Failed), Some(id), repair)
    ensures Retasked(r.graph, FailTask(r, Some(id), repair).graph, id, Pending)
  {
    RequeuedGraph(r, Some(id), repair);
    RetryRetasks(r.graph, id, Find(WithStatus(r.graph, Some(id), Failed), Some(id)).value.retryCount + 1);
  }

  lemma HaltRetasks(r: Run, id: TaskId, repair: bool)
    requires !CanRequeue(WithStatus(r.graph, Some(id), Failed), Some(id), repair)
    ensures Retasked(r.graph, FailTask(r, Some(id), repair).graph, id, Failed)
  {
    FailedGraph(r, Some(id), repair);
    WithStatusRetasks(r.graph, id, Failed);
  }

  lemma FailRetasks(r: Run, id: TaskId, repair: bool)
    ensures Retasked(r.graph, FailTask(r, Some(id), repair).graph, id,
                     if CanRequeue(WithStatus(r.graph, Some(id), Failed), Some(id), repair) then Pending else Failed)
  {
    if CanRequeue(WithStatus(r.graph, Some(id), Failed), Some(id), repair) {
      RequeueRetasks(r, id, repair);
    } else {
      HaltRetasks(r, id, repair);
    }
  }

  lemma FailingNobody(r: Run, repair: bool)
    ensures FailTask(r, None, repair).graph == r.graph && !CanRequeue(WithStatus(r.graph, None, Failed), None, repair)
  {
    assert WithStatus(r.graph, None, Failed) == r.graph;
    assert Find(r.graph, None).None?;
    FailGraphs(r, None, repair);
  }

  lemma FailEventsQuiet(r: Run, id: Option<TaskId>, repair: bool)
    ensures forall requeued: bool :: Quiet(FailEvents(r, id, requeued))
    ensures id.Some? ==> Gave(r.log + FailEvents(r, id, false), id.value)
  {
    if Event(TaskFailed, id) !in r.log {
      assert FailEvents(r, id, false)[0] == Event(TaskFailed, id);
    }
  }

  lemma FailEdits(r: Run, id: TaskId, repair: bool)
    ensures var requeued := CanRequeue(WithStatus(r.graph, Some(id), Failed), Some(id), repair);
            Edits(r, FailTask(r, Some(id), repair), id, if requeued then Pending else Failed, FailEvents(r, Some(id), requeued))
  {
    FailEventsQuiet(r, Some(id), repair);
    FailFields(r, Some(id), repair);
    FailRetasks(r, id, repair);
    FailLog(r, Some(id), repair);
  }

  /** `id` is none only when no task was active and the report carried no task. */
  lemma FailTaskKeeps(g0: Graph, r: Run, id: Option<TaskId>, repair: bool)
    requires Core(g0, r) && r.started
    requires id.Some? ==> Live(r.graph, id.value) && OnlyInProgress(r.graph, id)
    requires id.None? ==> r.active.None?
    ensures Core(g0, FailTask(r, id, repair))
  {
    if id.None? {
      FailEventsQuiet(r, id, repair);
      FailFields(r, id, repair);
      FailingNobody(r, repair);
      FailLog(r, id, repair);
      QuietStep(g0, r, FailTask(r, id, repair), FailEvents(r, id, false));
    } else {
      var requeued := CanRequeue(WithStatus(r.graph, id, Failed), id, repair);
      FailEdits(r, id.value, repair);
      EditKeeps(g0, r, FailTask(r, id, repair), id.value, if requeued then Pending else Failed, FailEvents(r, id, requeued));
    }
  }

  lemma FinishKeeps(g0: Graph, s: State, acts: seq<AgentEvent>, call: Call, repair: bool)
    requires Inv(g0, s)
    ensures Inv(g0, Finish(s, acts, call, repair))
  {
    if Streaming(s) {
      if Drain(s, acts).None? {
        RaiseKeeps(g0, s);
      } else {
        DrainKeeps(g0, s, acts);
        var d := Drain(s, acts).value;
        var r := Emit(d.run, Usage, None);
        QuietStep(g0, d.run, r, [Event(Usage, None)]);
        ConcludeKeeps(g0, State(r, d.worker), call, repair);
      }
    }
  }

  lemma ConcludeKeeps(g0: Graph, s: State, call: Call, repair: bool)
    requires Inv(g0, s) && s.worker.Working?
    ensures Core(g0, Conclude(s.run, s.worker, call, repair))
  {
    if Judging(s.worker, call) {
      var id := JudgedTask(s.run, s.worker);
      if s.worker.report.value.success && AcceptanceGate(s.run.checks, id) {
        SucceedKeeps(g0, s.run, id.value);
      } else {
        FailTaskKeeps(g0, s.run, id, repair);
      }
    } else {
      PauseKeeps(g0, s, call);
    }
  }

  lemma PauseKeeps(g0: Graph, s: State, call: Call)
    requires Inv(g0, s) && s.worker.Working?
    ensures Core(g0, Pause(s.run, s.worker, call))
  {
    var r, w, q := s.run, s.worker, Pause(s.run, s.worker, call);
    if w.resumption.Approved? && w.resumption.cancelAfter {
      CancelRunKeeps(g0, r);
    } else if w.question {
      QuietStep(g0, r, q, [Event(QuestionRequired, None)]);
    } else if call.PendingCall? {
      if !call.allowed {
        QuietStep(g0, r, q, [Event(PermissionDenied, None)]);
      } else if call.requiresApproval {
        QuietStep(g0, r, q, [Event(ApprovalRequired, None)]);
      }
    } else {
      QuietStep(g0, r, q, [Event(RunFailedEvent, r.active)]);
    }
  }

  // ---------------------------------------------------------------- watchdog, API routes, checks

  lemma WatchdogRecovers(s: State)
    requires Busy(s.run.status) && s.run.active.Some? && Retries(s.run.taskRetries, s.run.active.value) < MAX_TASK_RETRIES
    ensures Watchdog(s).worker == s.worker
    ensures Edits(s.run, Watchdog(s).run, s.run.active.value, Pending,
                  [Event(TaskRecovering, s.run.active), Event(RunQueuedEvent, s.run.active)])
  {
    WithStatusRetasks(s.run.graph, s.run.active.value, Pending);
  }

  lemma WatchdogGivesUp(s: State)
    requires Busy(s.run.status) && s.run.active.Some? && Retries(s.run.taskRetries, s.run.active.value) >= MAX_TASK_RETRIES
    ensures Watchdog(s).worker == s.worker
    ensures Edits(s.run, Watchdog(s).run, s.run.active.value, Failed,
                  [Event(TaskFailed, s.run.active), Event(RunFailedEvent, s.run.active)])
  {
    var es := [Event(TaskFailed, s.run.active), Event(RunFailedEvent, s.run.active)];
    WithStatusRetasks(s.run.graph, s.run.active.value, Failed);
    assert Watchdog(s).run.log == s.run.log + es && es[0] in es;
  }

  lemma WatchdogKeeps(g0: Graph, s: State)
    requires Inv(g0, s)
    ensures Inv(g0, Watchdog(s))
  {
    var r := s.run;
    if Busy(r.status) && r.active.Some? {
      var recovers := Retries(r.taskRetries, r.active.value) < MAX_TASK_RETRIES;
      if recovers { WatchdogRecovers(s); } else { WatchdogGivesUp(s); }
      var es := [Event(if recovers then TaskRecovering else TaskFailed, r.active),
                 Event(if recovers then RunQueuedEvent else RunFailedEvent, r.active)];
      HaltKeeps(g0, s, Watchdog(s).run, if recovers then Pending else Failed, es);
    }
  }

  /** Taking the active task out of progress, with the worker still at it. */
  lemma HaltKeeps(g0: Graph, s: State, q: Run, status: Status, es: seq<Event>)
    requires Inv(g0, s) && s.run.active.Some? && status != InProgress
    requires Edits(s.run, q, s.run.active.value, status, es)
    ensures Inv(g0, State(q, s.worker))
  {
    ActiveIsLive(g0, s.run);
    EditKeeps(g0, s.run, q, s.run.active.value, status, es);
    EditKeepsReport(s, q, s.run.active.value, status, es);
  }

  lemma CancelRequestEdits(s: State)
    requires s.run.active.Some?
    requires s.run.status in {Queued, AwaitingQuestion} || (s.run.status == AwaitingApproval && !s.run.pendingAction)
    ensures CancelRequest(s).worker == s.worker
    ensures Edits(s.run, CancelRequest(s).run, s.run.active.value, Cancelled,
                  [Event(TaskCancelled, s.run.active), Event(CancellationRequested, None), Event(RunCancelledEvent, None)])
  {
    var es := [Event(TaskCancelled, s.run.active), Event(CancellationRequested, None), Event(RunCancelledEvent, None)];
    WithStatusRetasks(s.run.graph, s.run.active.value, Cancelled);
    assert CancelRequest(s).run.log == s.run.log + es && es[0] in es;
  }

  lemma CancelRequestKeeps(g0: Graph, s: State)
    requires Inv(g0, s)
    ensures Inv(g0, CancelRequest(s))
  {
    var r := s.run;
    if r.status in {Queued, Running, AwaitingQuestion, AwaitingApproval} {
      if r.status == Running || (r.status == AwaitingApproval && r.pendingAction) || r.active.None? {
        CancelAnnouncedKeeps(g0, s);
      } else {
        CancelRequestEdits(s);
        HaltKeeps(g0, s, CancelRequest(s).run, Cancelled,
                  [Event(TaskCancelled, r.active), Event(CancellationRequested, None), Event(RunCancelledEvent, None)]);
      }
    }
  }

  lemma CancelAnnouncedKeeps(g0: Graph, s: State)
    requires Inv(g0, s) && s.run.status in {Queued, Running, AwaitingQuestion, AwaitingApproval}
    requires s.run.status == Running || (s.run.status == AwaitingApproval && s.run.pendingAction) || s.run.active.None?
    ensures Inv(g0, CancelRequest(s))
  {
    var q := CancelRequest(s).run;
    var es := [Event(CancellationRequested, None)]
              + (if q.status == RunCancelled then [Event(RunCancelledEvent, None)] else []);
    assert q.log == s.run.log + es;
    QuietStep(g0, s.run, q, es);
  }

  /** Routes that only change the run's status and announce it. */
  lemma AnnouncedKeeps(g0: Graph, s: State, q: Run, es: seq<Event>)
    requires Inv(g0, s) && q.graph == s.run.graph && q.checks == s.run.checks && q.started == s.run.started
    requires q.log == s.run.log + es && Quiet(es)
    requires q.active == s.run.active || (q.active.None? && Event(RunInterruptedEvent, None) in es)
    requires q.status in {Queued, RunExpired, RunInterrupted, s.run.status}
    ensures Inv(g0, State(q, s.worker))
  {
    if q.active != s.run.active { assert Interrupted(q.log); }
    QuietStep(g0, s.run, q, es);
  }

  lemma FallbackKeeps(g0: Graph, s: State)
    requires Inv(g0, s)
    ensures Inv(g0, Fallback(s))
  {
    if Busy(s.run.status) { AnnouncedKeeps(g0, s, Fallback(s).run, [Event(RunQueuedEvent, None)]); }
  }

  lemma QuestionsKeep(g0: Graph, s: State)
    requires Inv(g0, s)
    ensures Inv(g0, AnswerQuestion(s)) && Inv(g0, ExpireQuestion(s))
  {
    if s.run.status == AwaitingQuestion {
      AnnouncedKeeps(g0, s, AnswerQuestion(s).run, [Event(QuestionAnswered, None)]);
      AnnouncedKeeps(g0, s, ExpireQuestion(s).run, [Event(RunExpiredEvent, None)]);
    }
  }

  lemma ActionsKeep(g0: Graph, s: State)
    requires Inv(g0, s)
    ensures Inv(g0, DecideAction(s)) && Inv(g0, ExpireAction(s))
  {
    if s.run.pendingAction {
      var es := [Event(ApprovalDecided, None), Event(RunQueuedEvent, s.run.active)];
      assert DecideAction(s).run.log == s.run.log + es;
      AnnouncedKeeps(g0, s, DecideAction(s).run, es);
      AnnouncedKeeps(g0, s, ExpireAction(s).run, [Event(RunExpiredEvent, None)]);
    }
  }

  lemma InterruptKeeps(g0: Graph, s: State)
    requires Inv(g0, s)
    ensures Inv(g0, Interrupt(s))
  {
    if s.run.status in {Queued, Running} { AnnouncedKeeps(g0, s, Interrupt(s).run, [Event(RunInterruptedEvent, None)]); }
  }

  lemma ClearChatKeeps(g0: Graph, s: State)
    requires Inv(g0, s)
    ensures Inv(g0, ClearChat(s))
  {
    assert s.run.log + [] == s.run.log;
    QuietStep(g0, s.run, ClearChat(s).run, []);
  }

  /** A passed check is never rewritten, so evidence once accepted stays. */
  lemma PackagingKeepsEvidence(checks: seq<Check>, report: PackageReport, task: Option<TaskId>)
    requires AcceptanceGate(checks, task)
    ensures AcceptanceGate(ReevaluateAll(checks, report), task)
  {
    var after := ReevaluateAll(checks, report);
    assert forall i :: 0 <= i < |checks| ==> (Owes(after[i], task) <==> Owes(checks[i], task));
    if task.value in CHECK_GATED_TASKS {
      var i :| 0 <= i < |checks| && Owes(checks[i], task);
      assert Owes(after[i], task);
    }
  }

  lemma PackagingKeeps(g0: Graph, s: State, report: PackageReport)
    requires Inv(g0, s)
    ensures Inv(g0, RecordPackaging(s, report))
  {
    var r := s.run;
    forall i | 0 <= i < |r.graph| && r.graph[i].status == Done && r.graph[i].id !in DoneIds(g0)
      ensures AcceptanceGate(ReevaluateAll(r.checks, report), Some(r.graph[i].id))
    {
      PackagingKeepsEvidence(r.checks, report, Some(r.graph[i].id));
    }
  }

  // ---------------------------------------------------------------- all steps, all runs

  /** The steps that carry nothing: routes, the fallback, a lost worker. */
  lemma RoutesKeep(g0: Graph, s: State, step: Step, repair: bool)
    requires Inv(g0, s) && IsRoute(step)
    ensures Inv(g0, Apply(s, step, repair))
  {
    match step
    case DoFallback => FallbackKeeps(g0, s);
    case DoCancelRequest => CancelRequestKeeps(g0, s);
    case DoAnswerQuestion => QuestionsKeep(g0, s);
    case DoExpireQuestion => QuestionsKeep(g0, s);
    case DoDecideAction => ActionsKeep(g0, s);
    case DoExpireAction => ActionsKeep(g0, s);
    case DoInterrupt => InterruptKeeps(g0, s);
    case DoClearChat => ClearChatKeeps(g0, s);
    case DoLoseWorker =>
  }

  /** The steps by which a worker takes up a run, and the watchdog takes it back. */
  predicate IsHandover(step: Step) {
    step.DoStart? || step.DoResume? || step.DoResumeAction? || step.DoWatchdog? || step.DoRecordPackaging?
  }

  lemma HandoversKeep(g0: Graph, s: State, step: Step, repair: bool)
    requires Inv(g0, s) && IsHandover(step)
    ensures Inv(g0, Apply(s, step, repair))
  {
    match step
    case DoStart => StartKeeps(g0, s);
    case DoResume => ResumeKeeps(g0, s);
    case DoResumeAction(resumption) => ResumeActionKeeps(g0, s, resumption);
    case DoWatchdog => WatchdogKeeps(g0, s);
    case DoRecordPackaging(report) => PackagingKeeps(g0, s, report);
  }

  lemma StepKeeps(g0: Graph, s: State, step: Step, repair: bool)
    requires Inv(g0, s)
    ensures Inv(g0, Apply(s, step, repair))
  {
    if IsRoute(step) {
      RoutesKeep(g0, s, step, repair);
    } else if IsHandover(step) {
      HandoversKeep(g0, s, step, repair);
    } else {
      match step
      case DoRejectAction => RejectActionKeeps(g0, s);
      case DoChunk(acts) => ChunkKeeps(g0, s, acts);
      case DoFinish(acts, call) => FinishKeeps(g0, s, acts, call, repair);
      case DoRaise => RaiseKeeps(g0, s);
    }
  }

  lemma {:induction false} RunKeeps(s: State, steps: seq<Step>, repair: bool)
    requires Unstarted(s)
    ensures Inv(s.run.graph, Execute(s, steps, repair))
    decreases |steps|
  {
    if steps != [] {
      RunKeeps(s, steps[..|steps| - 1], repair);
      StepKeeps(s.run.graph, Execute(s, steps[..|steps| - 1], repair), steps[|steps| - 1], repair);
    }
  }
}
