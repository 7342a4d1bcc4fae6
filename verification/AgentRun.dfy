/**
 The stored run as the worker edits it: fields updated in place, transaction by transaction,
 each method proved against the transaction function of the same name in `RunModel`.
 */
module AgentRunRecord {
  import opened Wrappers
  import opened TaskGraph
  import opened RunModel
  import opened RunSafety

  /** The outbox events that wake a worker for a run. */
  datatype Delivery = RunStart | RunResume | ActionResume(decision: Resumption)

  class AgentRun {
    var status: RunStatus
    var started: bool
    var taskGraph: Graph
    var activeTaskId: Option<TaskId>
    var taskRetries: map<TaskId, int>
    var events: seq<Event>
    var checks: seq<Check>
    var pendingAction: bool
    var worker: Worker

    function Row(): Run
      reads this
    {
      Run(status, started, taskGraph, activeTaskId, taskRetries, events, checks, pendingAction)
    }

    function View(): State
      reads this
    {
      State(Row(), worker)
    }

    constructor (graph: Graph, compiled: seq<Check>)
      ensures View() == State(Run(Queued, false, graph, None, map[], [], compiled, false), Idle)
    {
      status, started, taskGraph, activeTaskId := Queued, false, graph, None;
      taskRetries, events, checks, pendingAction := map[], [], compiled, false;
      worker := Idle;
    }

    method EmitEvent(kind: Kind, task: Option<TaskId>)
      modifies this`events
      ensures Row() == Emit(old(Row()), kind, task)
    {
      events := events + [Event(kind, task)];
    }

    method EmitTaskTransition(kind: Kind, task: Option<TaskId>)
      modifies this`events
      ensures Row() == EmitOnce(old(Row()), kind, task)
    {
      var emitted := false;
      var i := 0;
      while i < |events|
        invariant 0 <= i <= |events|
        invariant emitted <==> Event(kind, task) in events[..i]
      {
        emitted := emitted || events[i] == Event(kind, task);
        i := i + 1;
      }
      assert events[..i] == events;
      if !emitted {
        EmitEvent(kind, task);
      }
    }

    method ApplyTaskStatus(id: Option<TaskId>, newStatus: Status)
      modifies this`taskGraph
      ensures Row() == old(Row()).(graph := WithStatus(old(taskGraph), id, newStatus))
    {
      var graph: Graph := [];
      var i := 0;
      while i < |taskGraph|
        invariant 0 <= i <= |taskGraph| && graph == WithStatus(taskGraph, id, newStatus)[..i]
      {
        graph := graph + [if id == Some(taskGraph[i].id) then taskGraph[i].(status := newStatus) else taskGraph[i]];
        i := i + 1;
      }
      taskGraph := graph;
    }

    /** The required checks that keep a task from succeeding; `missing` when a gated task has none. */
    method RequiredAcceptanceFailures(task: Option<TaskId>) returns (failures: seq<Check>, missing: bool)
      ensures failures == [] && !missing <==> AcceptanceGate(checks, task)
      ensures forall c :: c in failures <==> c in checks && Owes(c, task) && c.status != CheckPassed && task.Some? && !missing
    {
      failures, missing := [], task.None?;
      if task.None? {
        return;
      }
      var owed := false;
      var i := 0;
      while i < |checks|
        invariant 0 <= i <= |checks|
        invariant owed <==> exists j :: 0 <= j < i && Owes(checks[j], task)
        invariant forall c :: c in failures <==> exists j :: 0 <= j < i && checks[j] == c && Owes(c, task) && c.status != CheckPassed
      {
        if Owes(checks[i], task) {
          owed := true;
          if checks[i].status != CheckPassed {
            failures := failures + [checks[i]];
          }
        }
        i := i + 1;
      }
      if task.value in CHECK_GATED_TASKS && !owed {
        failures, missing := [], true;
      }
      if failures != [] {
        assert failures[0] in failures;
      } else if !missing {
        forall j | 0 <= j < |checks| && Owes(checks[j], task) ensures checks[j].status == CheckPassed {
          assert checks[j] in failures || checks[j].status == CheckPassed;
        }
      }
    }

    method RequeueFailedTask(id: Option<TaskId>, repair: bool) returns (requeued: bool)
      modifies this
      ensures requeued == CanRequeue(old(taskGraph), id, repair)
      ensures View() == old(View()).(run := if requeued then Requeue(old(Row()), id) else old(Row()))
    {
      var task := Find(taskGraph, id);
      if !repair || task.None? || task.value.retryCount >= task.value.maxRetries {
        return false;
      }
      taskGraph := WithRetry(taskGraph, id, task.value.retryCount + 1);
      activeTaskId := None;
      status := Queued;
      EmitTaskTransition(TaskRetrying, id);
      return true;
    }

    // -------------------------------------------------------------- process_run

    method CancelActiveTask()
      modifies this`taskGraph, this`events, this`activeTaskId
      ensures Row() == CancelActive(old(Row()))
    {
      if activeTaskId.Some? {
        ApplyTaskStatus(activeTaskId, Cancelled);
        EmitTaskTransition(TaskCancelled, activeTaskId);
      }
      activeTaskId := None;
    }

    method FocusOn(next: Option<Task>, plan: bool)
      modifies this`taskGraph, this`events, this`activeTaskId
      ensures Row() == Focus(old(Row()), next, plan)
    {
      if next.Some? {
        activeTaskId := Some(next.value.id);
        ApplyTaskStatus(activeTaskId, InProgress);
        if plan {
          EmitEvent(SupervisorPlan, activeTaskId);
        }
        EmitTaskTransition(TaskStarted, activeTaskId);
      }
    }

    /** The opening transaction of a handler. */
    method BeginHandler(delivery: Delivery)
      modifies this
      ensures View() == match delivery
                        case RunStart => Start(old(View()))
                        case RunResume => Resume(old(View()))
                        case ActionResume(decision) => ResumeAction(old(View()), decision)
    {
      var due := match delivery
        case RunStart => !started
        case RunResume => started || taskGraph == []
        case ActionResume(_) => started;
      if !worker.Idle? || !due || Terminal(status) {
        return;
      }
      if status == Cancelling {
        CancelActiveTask();
        status := RunCancelled;
        EmitEvent(RunCancelledEvent, None);
        return;
      }
      status, started := Running, true;
      match delivery {
        case RunStart => FocusOn(NextTask(taskGraph), true);
        case RunResume => FocusOn(NextOnResume(taskGraph), false);
        case ActionResume(_) =>
      }
      EmitEvent(RunStartedEvent, None);
      worker := Working(if delivery.ActionResume? then delivery.decision else Plain, None, false);
    }

    method RejectPendingAction()
      modifies this
      ensures View() == RejectAction(old(View()))
    {
      if !(worker.Working? && worker.resumption.Rejected?) {
        return;
      }
      var cancelled := worker.resumption.cancelAfter;
      var task := activeTaskId;
      EmitEvent(TaskReport, task);
      if task.Some? {
        ApplyTaskStatus(task, if cancelled then Cancelled else Failed);
        EmitTaskTransition(if cancelled then TaskCancelled else TaskFailed, task);
      }
      activeTaskId := None;
      status := if cancelled then RunCancelled else RunFailed;
      EmitEvent(FinalReport, None);
      EmitEvent(if cancelled then RunCancelledEvent else RunFailedEvent, task);
      worker := Idle;
    }

    /** Handles the agent's pending events; on an error nothing of this transaction is kept. */
    method DrainActivity(acts: seq<AgentEvent>) returns (ok: bool)
      requires worker.Working?
      modifies this
      ensures ok == Drain(old(View()), acts).Some?
      ensures View() == if ok then Drain(old(View()), acts).value else old(View())
    {
      var savedEvents, savedWorker := events, worker;
      var i := 0;
      while i < |acts|
        invariant 0 <= i <= |acts| && worker.Working?
        invariant View() == old(View()).(run := old(Row()).(log := events), worker := worker)
        invariant Drain(old(View()), acts) == Drain(View(), acts[i..])
      {
        assert acts[i..][0] == acts[i] && acts[i..][1..] == acts[i + 1..];
        ghost var before := View();
        match acts[i] {
          case StartTool =>
            if activeTaskId.Some? && Count(events, Event(ToolStarted, activeTaskId)) >= MAX_TOOL_ITERATIONS {
              events, worker := savedEvents, savedWorker;
              return false;
            }
            EmitEvent(ToolStarted, activeTaskId);
          case OtherTool => EmitEvent(ToolOther, activeTaskId);
          case CompleteTask(success) =>
            if worker.report.Some? {
              events, worker := savedEvents, savedWorker;
              return false;
            }
            worker := worker.(report := Some(Report(activeTaskId, success)));
            EmitEvent(TaskReport, activeTaskId);
          case AskQuestion =>
            worker := worker.(question := true);
            EmitEvent(QuestionRaised, None);
          case OtherActivity => EmitEvent(Activity, None);
        }
        assert DrainOne(before, acts[i]) == Some(View());
        i := i + 1;
      }
      return true;
    }

    /** The exception path of a handler. */
    method HandleException()
      modifies this
      ensures View() == Raise(old(View()))
    {
      if worker.Idle? && Terminal(status) {
        return;
      }
      var failedTask := activeTaskId;
      if failedTask.Some? {
        ApplyTaskStatus(failedTask, Failed);
        EmitTaskTransition(TaskFailed, failedTask);
        activeTaskId := None;
      }
      status, started := RunFailed, true;
      EmitEvent(RunFailedEvent, failedTask);
      worker := Idle;
    }

    method StreamChunk(acts: seq<AgentEvent>)
      modifies this
      ensures View() == Chunk(old(View()), acts)
    {
      if !Streaming(View()) {
        return;
      }
      if status == Cancelling {
        CancelActiveTask();
        status := RunCancelled;
        EmitEvent(RunCancelledEvent, None);
        worker := Idle;
        return;
      }
      var ok := DrainActivity(acts);
      if ok {
        EmitEvent(MessageDelta, None);
      } else {
        HandleException();
      }
    }

    /** Marks the task done, announces it and moves the run on. */
    method CompleteTask(task: Option<TaskId>)
      modifies this
      ensures View() == old(View()).(run := Succeed(old(Row()), task))
    {
      ApplyTaskStatus(task, Done);
      activeTaskId := None;
      EmitTaskTransition(TaskCompleted, task);
      MoveOn();
    }

    method MoveOn()
      modifies this
      ensures View() == old(View()).(run := Announce(old(Row())))
    {
      var next := NextTask(taskGraph);
      if next.Some? {
        activeTaskId := Some(next.value.id);
        status := Queued;
        EmitEvent(RunQueuedEvent, activeTaskId);
      } else if IsComplete(taskGraph) {
        status := RunSucceeded;
        AnnounceSuccess();
      } else {
        status := RunFailed;
        EmitEvent(RunDeadlocked, None);
      }
    }

    method AnnounceSuccess()
      modifies this`events
      ensures Row() == EmitAll(old(Row()), [SupervisorComplete, FinalReport, RunCompletedEvent, MessageDelta])
    {
      EmitEvent(SupervisorComplete, None);
      EmitEvent(FinalReport, None);
      EmitEvent(RunCompletedEvent, None);
      EmitEvent(MessageDelta, None);
      assert events == old(events) + [Event(SupervisorComplete, None), Event(FinalReport, None),
                                      Event(RunCompletedEvent, None), Event(MessageDelta, None)];
    }

    method FailTaskOrRequeue(task: Option<TaskId>, repair: bool)
      modifies this
      ensures View() == old(View()).(run := FailTask(old(Row()), task, repair))
    {
      ApplyTaskStatus(task, Failed);
      activeTaskId := None;
      var requeued := RequeueFailedTask(task, repair);
      if !requeued {
        EmitTaskTransition(TaskFailed, task);
        status := RunFailed;
        EmitEvent(FinalReport, None);
        EmitEvent(RunFailedEvent, task);
      }
    }

    method SettleTask(task: Option<TaskId>, reportedSuccess: bool, repair: bool)
      modifies this
      ensures View() == old(View()).(run := TaskOutcome(old(Row()), task, reportedSuccess, repair))
    {
      var failures, missing := RequiredAcceptanceFailures(task);
      if reportedSuccess && failures == [] && !missing {
        CompleteTask(task);
      } else {
        FailTaskOrRequeue(task, repair);
      }
    }

    method ConcludeHandler(call: Call, repair: bool)
      requires worker.Working?
      modifies this
      ensures View() == State(Conclude(old(Row()), old(worker), call, repair), Idle)
    {
      var w := worker;
      worker := Idle;
      if w.resumption.Approved? && w.resumption.cancelAfter {
        CancelActiveTask();
        status := RunCancelled;
        EmitEvent(RunCancelledEvent, None);
      } else if w.question {
        status := AwaitingQuestion;
        EmitEvent(QuestionRequired, None);
      } else if call.PendingCall? {
        if call.allowed && !call.requiresApproval {
        } else if !call.allowed {
          status := Queued;
          EmitEvent(PermissionDenied, None);
        } else {
          status, pendingAction := AwaitingApproval, true;
          EmitEvent(ApprovalRequired, None);
        }
      } else if w.report.None? {
        status := RunFailed;
        EmitEvent(RunFailedEvent, activeTaskId);
      } else {
        SettleTask(if activeTaskId.Some? then activeTaskId else w.report.value.task, w.report.value.success, repair);
      }
    }

    method FinishHandler(acts: seq<AgentEvent>, call: Call, repair: bool)
      modifies this
      ensures View() == Finish(old(View()), acts, call, repair)
    {
      if !Streaming(View()) {
        return;
      }
      var ok := DrainActivity(acts);
      if ok {
        EmitEvent(Usage, None);
        ConcludeHandler(call, repair);
      } else {
        HandleException();
      }
    }

    // -------------------------------------------------------------- recover_stale_work, package_module

    method RecoverStaleTask()
      modifies this
      ensures View() == Watchdog(old(View()))
    {
      if !(Busy(status) && activeTaskId.Some?) {
        return;
      }
      var task := activeTaskId;
      var current := Retries(taskRetries, task.value);
      if current < MAX_TASK_RETRIES {
        RequeueStaleTask(task.value, current);
      } else {
        status := RunFailed;
        ApplyTaskStatus(task, Failed);
        EmitEvent(TaskFailed, task);
        EmitEvent(RunFailedEvent, task);
      }
    }

    method RequeueStaleTask(task: TaskId, current: int)
      modifies this
      ensures View() == old(View()).(run := Emit(Emit(old(Row()).(
                taskRetries := old(taskRetries)[task := current + 1], graph := WithStatus(old(taskGraph), Some(task), Pending),
                active := None, status := Queued), TaskRecovering, Some(task)), RunQueuedEvent, Some(task)))
    {
      taskRetries := taskRetries[task := current + 1];
      ApplyTaskStatus(Some(task), Pending);
      activeTaskId := None;
      status := Queued;
      EmitEvent(TaskRecovering, Some(task));
      EmitEvent(RunQueuedEvent, Some(task));
    }

    /** The bulk update of a cleared chat, as it meets this run. */
    method ClearChat()
      modifies this
      ensures View() == RunModel.ClearChat(old(View()))
    {
      pendingAction := false;
      if status in {Queued, Running, AwaitingQuestion, AwaitingApproval, Cancelling} {
        status := RunCancelled;
      }
    }

    method RequeueStaleRun()
      modifies this
      ensures View() == Fallback(old(View()))
    {
      if Busy(status) {
        status := Queued;
        EmitEvent(RunQueuedEvent, None);
      }
    }

    /** The packaging tool's pass over the run's checks. */
    method UpdateChecks(report: PackageReport)
      modifies this`checks
      ensures View() == RecordPackaging(old(View()), report)
    {
      var i := 0;
      while i < |checks|
        invariant 0 <= i <= |checks| && |checks| == |old(checks)|
        invariant forall j :: 0 <= j < |checks| ==>
                    checks[j] == if j < i then Reevaluate(old(checks)[j], report) else old(checks)[j]
      {
        var check := checks[i];
        if check.status != CheckPassed {
          if check.kind == "artifact_digest" && report.staticPassed {
            check := check.(status := CheckPassed);
          } else if check.task == Some("validate_and_verify") {
            var testsOk := report.testCount > 0;
            check := check.(status := if report.runtimeOk && (check.kind != "business_scenario" || testsOk)
                                      then CheckPassed else CheckFailed);
          }
        }
        checks := checks[i := check];
        i := i + 1;
      }
      assert checks == ReevaluateAll(old(checks), report);
    }
  }
}
