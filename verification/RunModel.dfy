/**
 One durable agent run, transaction by transaction.

 `State` is the stored run together with the local variables of the one worker that may be
 handling it.  Every committed transaction of the worker, the watchdog and the API routes is a
 function on `State`; `Apply` gathers them.  A transaction whose guard fails changes nothing.
 */
module RunModel {
  import opened Wrappers
  import opened TaskGraph

  const MAX_TASK_RETRIES := 2
  const MAX_TOOL_ITERATIONS := 40

  datatype RunStatus =
    | Queued | Running | AwaitingQuestion | AwaitingApproval | Cancelling
    | RunSucceeded | RunFailed | RunCancelled | RunExpired | RunInterrupted

  datatype Kind =
    | SupervisorPlan | SupervisorComplete
    | TaskStarted | TaskCompleted | TaskFailed | TaskCancelled | TaskRetrying | TaskRecovering | TaskReport
    | ToolStarted | ToolOther | QuestionRaised | Activity | MessageDelta | Usage
    | QuestionRequired | QuestionAnswered | ApprovalRequired | ApprovalDecided | PermissionDenied | FinalReport
    | RunQueuedEvent | RunStartedEvent | RunCompletedEvent | RunFailedEvent | RunDeadlocked
    | RunCancelledEvent | RunExpiredEvent | RunInterruptedEvent | CancellationRequested

  datatype Event = Event(kind: Kind, task: Option<TaskId>)

  datatype CheckStatus = CheckPending | CheckRunning | CheckPassed | CheckFailed | CheckSkipped

  datatype Check = Check(task: Option<TaskId>, kind: string, required: bool, status: CheckStatus)

  /** The stored row.  `started` records that the run's single `run.start` was handled. */
  datatype Run = Run(
    status: RunStatus,
    started: bool,
    graph: Graph,
    active: Option<TaskId>,
    taskRetries: map<TaskId, int>,
    log: seq<Event>,
    checks: seq<Check>,
    pendingAction: bool)

  datatype Report = Report(task: Option<TaskId>, success: bool)

  datatype Resumption = Plain | Approved(cancelAfter: bool) | Rejected(cancelAfter: bool)

  datatype Worker = Idle | Working(resumption: Resumption, report: Option<Report>, question: bool)

  datatype State = State(run: Run, worker: Worker)

  // ---------------------------------------------------------------- log and graph edits

  function Emit(r: Run, kind: Kind, task: Option<TaskId>): Run {
    r.(log := r.log + [Event(kind, task)])
  }

  function EmitAll(r: Run, kinds: seq<Kind>): Run {
    r.(log := r.log + seq(|kinds|, i requires 0 <= i < |kinds| => Event(kinds[i], None)))
  }

  /** Task transitions are announced once per run, kind and task. */
  function EmitOnce(r: Run, kind: Kind, task: Option<TaskId>): Run {
    if Event(kind, task) in r.log then r else Emit(r, kind, task)
  }

  function WithStatus(g: Graph, id: Option<TaskId>, status: Status): Graph {
    seq(|g|, i requires 0 <= i < |g| => if id == Some(g[i].id) then g[i].(status := status) else g[i])
  }

  function WithRetry(g: Graph, id: Option<TaskId>, count: int): Graph {
    seq(|g|, i requires 0 <= i < |g| =>
      if id == Some(g[i].id) then g[i].(status := Pending, retryCount := count) else g[i])
  }

  function Find(g: Graph, id: Option<TaskId>, from: nat := 0): (r: Option<Task>)
    requires from <= |g|
    ensures r.Some? ==> r.value in g[from..] && id == Some(r.value.id)
    ensures r.None? ==> forall i :: from <= i < |g| ==> id != Some(g[i].id)
    decreases |g| - from
  {
    if from == |g| then None
    else if id == Some(g[from].id) then Some(g[from])
    else Find(g, id, from + 1)
  }

  function FirstInProgress(g: Graph, from: nat := 0): (r: Option<Task>)
    requires from <= |g|
    ensures r.Some? ==> r.value in g[from..] && r.value.status == InProgress
    ensures r.None? ==> forall i :: from <= i < |g| ==> g[i].status != InProgress
    decreases |g| - from
  {
    if from == |g| then None
    else if g[from].status == InProgress then Some(g[from])
    else FirstInProgress(g, from + 1)
  }

  // ---------------------------------------------------------------- the acceptance gate

  /** Tasks that may not succeed without at least one required check. */
  const CHECK_GATED_TASKS: set<TaskId> := {"validate_and_verify"}

  predicate Owes(c: Check, task: Option<TaskId>) {
    c.required && c.task == task
  }

  predicate AcceptanceGate(checks: seq<Check>, task: Option<TaskId>) {
    && task.Some?
    && (forall i :: 0 <= i < |checks| && Owes(checks[i], task) ==> checks[i].status == CheckPassed)
    && (task.value in CHECK_GATED_TASKS ==> exists i :: 0 <= i < |checks| && Owes(checks[i], task))
  }

  /** What a packaging run found: static checks, install/upgrade outcome, number of tests. */
  datatype PackageReport = PackageReport(staticPassed: bool, runtimeOk: bool, testCount: int)

  /** A packaging run rewrites only checks that have not passed yet. */
  function Reevaluate(c: Check, report: PackageReport): Check {
    if c.status == CheckPassed then c
    else if c.kind == "artifact_digest" && report.staticPassed then c.(status := CheckPassed)
    else if c.task == Some("validate_and_verify") then
      c.(status := if report.runtimeOk && (c.kind != "business_scenario" || report.testCount > 0)
                   then CheckPassed else CheckFailed)
    else c
  }

  function ReevaluateAll(checks: seq<Check>, report: PackageReport): seq<Check> {
    seq(|checks|, i requires 0 <= i < |checks| => Reevaluate(checks[i], report))
  }

  // ---------------------------------------------------------------- beginning a handler

  predicate Terminal(status: RunStatus) {
    status in {RunSucceeded, RunFailed, RunCancelled}
  }

  function CancelActive(r: Run): Run {
    if r.active.Some?
    then EmitOnce(r.(graph := WithStatus(r.graph, r.active, Cancelled)), TaskCancelled, r.active).(active := None)
    else r
  }

  function CancelRun(r: Run): Run {
    Emit(CancelActive(r).(status := RunCancelled), RunCancelledEvent, None)
  }

  function Focus(r: Run, next: Option<Task>, plan: bool): Run {
    if next.None? then r
    else
      var id := Some(next.value.id);
      var f := r.(active := id, graph := WithStatus(r.graph, id, InProgress));
      EmitOnce(if plan then Emit(f, SupervisorPlan, id) else f, TaskStarted, id)
  }

  function NextOnResume(g: Graph): Option<Task> {
    if FirstInProgress(g).Some? then FirstInProgress(g) else NextTask(g)
  }

  function Begin(r: Run, resumption: Resumption, next: Option<Task>, plan: bool): State {
    if r.status == Cancelling then State(CancelRun(r), Idle)
    else State(Emit(Focus(r.(status := Running, started := true), next, plan), RunStartedEvent, None),
               Working(resumption, None, false))
  }

  function Start(s: State): State {
    if s.worker.Idle? && !s.run.started && !Terminal(s.run.status)
    then Begin(s.run, Plain, NextTask(s.run.graph), true) else s
  }

  /** A run asked for its module on creation has no graph yet, and is resumed without a start. */
  predicate MayResume(r: Run) {
    r.started || r.graph == []
  }

  function Resume(s: State): State {
    if s.worker.Idle? && MayResume(s.run) && !Terminal(s.run.status)
    then Begin(s.run, Plain, NextOnResume(s.run.graph), false) else s
  }

  /** Resuming after an approval decision keeps whatever task is active. */
  function ResumeAction(s: State, resumption: Resumption): State {
    if s.worker.Idle? && s.run.started && !Terminal(s.run.status)
    then Begin(s.run, resumption, None, false) else s
  }

  function RejectAction(s: State): State {
    if s.worker.Working? && s.worker.resumption.Rejected? then
      var r := Emit(s.run, TaskReport, s.run.active);
      var cancelled := s.worker.resumption.cancelAfter;
      var m := if r.active.Some?
               then EmitOnce(r.(graph := WithStatus(r.graph, r.active, if cancelled then Cancelled else Failed)),
                             if cancelled then TaskCancelled else TaskFailed, r.active)
               else r;
      var f := Emit(m.(active := None, status := if cancelled then RunCancelled else RunFailed), FinalReport, None);
      State(Emit(f, if cancelled then RunCancelledEvent else RunFailedEvent, r.active), Idle)
    else s
  }

  // ---------------------------------------------------------------- streaming

  datatype AgentEvent = StartTool | OtherTool | CompleteTask(success: bool) | AskQuestion | OtherActivity

  function Count(log: seq<Event>, e: Event): nat {
    if log == [] then 0 else Count(log[..|log| - 1], e) + (if log[|log| - 1] == e then 1 else 0)
  }

  /** One agent event, or None when it raises (a 41st tool start, a second report). */
  function DrainOne(s: State, a: AgentEvent): Option<State>
    requires s.worker.Working?
  {
    var r, w := s.run, s.worker;
    match a
    case StartTool =>
      if r.active.Some? && Count(r.log, Event(ToolStarted, r.active)) >= MAX_TOOL_ITERATIONS then None
      else Some(State(Emit(r, ToolStarted, r.active), w))
    case OtherTool => Some(State(Emit(r, ToolOther, r.active), w))
    case CompleteTask(success) =>
      if w.report.Some? then None
      else Some(State(Emit(r, TaskReport, r.active), w.(report := Some(Report(r.active, success)))))
    case AskQuestion => Some(State(Emit(r, QuestionRaised, None), w.(question := true)))
    case OtherActivity => Some(State(Emit(r, Activity, None), w))
  }

  function Drain(s: State, acts: seq<AgentEvent>): (r: Option<State>)
    requires s.worker.Working?
    ensures r.Some? ==> r.value.worker.Working? && r.value.worker.resumption == s.worker.resumption
    decreases |acts|
  {
    if acts == [] then Some(s)
    else
      var d := DrainOne(s, acts[0]);
      if d.None? then None else Drain(d.value, acts[1..])
  }

  predicate Streaming(s: State) {
    s.worker.Working? && !s.worker.resumption.Rejected?
  }

  /** A failing handler rolls its transaction back and fails the run and its active task. */
  function Raise(s: State): State {
    if s.worker.Idle? && Terminal(s.run.status) then s
    else
      var r := s.run;
      var f := if r.active.Some?
               then EmitOnce(r.(graph := WithStatus(r.graph, r.active, Failed)), TaskFailed, r.active).(active := None)
               else r;
      State(Emit(f.(status := RunFailed, started := true), RunFailedEvent, r.active), Idle)
  }

  function Chunk(s: State, acts: seq<AgentEvent>): State {
    if !Streaming(s) then s
    else if s.run.status == Cancelling then State(CancelRun(s.run), Idle)
    else
      var d := Drain(s, acts);
      if d.None? then Raise(s) else d.value.(run := Emit(d.value.run, MessageDelta, None))
  }

  // ---------------------------------------------------------------- finishing

  datatype Call = NoCall | PendingCall(allowed: bool, requiresApproval: bool)

  predicate CanRequeue(g: Graph, id: Option<TaskId>, repair: bool) {
    var t := Find(g, id);
    repair && t.Some? && t.value.retryCount < t.value.maxRetries
  }

  function Requeue(r: Run, id: Option<TaskId>): Run
    requires Find(r.graph, id).Some?
  {
    var count := Find(r.graph, id).value.retryCount + 1;
    EmitOnce(r.(graph := WithRetry(r.graph, id, count), active := None, status := Queued), TaskRetrying, id)
  }

  /** With a task done: on to the next one, or success, or the deadlock verdict. */
  function Announce(c: Run): Run {
    var next := NextTask(c.graph);
    if next.Some? then
      Emit(c.(active := Some(next.value.id), status := Queued), RunQueuedEvent, Some(next.value.id))
    else if IsComplete(c.graph) then
      EmitAll(c.(status := RunSucceeded), [SupervisorComplete, FinalReport, RunCompletedEvent, MessageDelta])
    else
      Emit(c.(status := RunFailed), RunDeadlocked, None)
  }

  function Succeed(r: Run, id: Option<TaskId>): Run {
    Announce(EmitOnce(r.(graph := WithStatus(r.graph, id, Done), active := None), TaskCompleted, id))
  }

  function FailTask(r: Run, id: Option<TaskId>, repair: bool): Run {
    var f := r.(graph := WithStatus(r.graph, id, Failed), active := None);
    if CanRequeue(f.graph, id, repair) then Requeue(f, id)
    else
      var g := Emit(EmitOnce(f, TaskFailed, id).(status := RunFailed), FinalReport, None);
      Emit(g, RunFailedEvent, id)
  }

  function TaskOutcome(r: Run, id: Option<TaskId>, success: bool, repair: bool): Run {
    if success && AcceptanceGate(r.checks, id) then Succeed(r, id) else FailTask(r, id, repair)
  }

  /** The closing transaction gets as far as judging the reported task. */
  predicate Judging(w: Worker, call: Call) {
    w.Working? && call.NoCall? && !(w.resumption.Approved? && w.resumption.cancelAfter) && !w.question && w.report.Some?
  }

  /** What ends the handler otherwise: a cancellation, a question, a pending call, or no report. */
  function Pause(r: Run, w: Worker, call: Call): Run
    requires w.Working?
  {
    if w.resumption.Approved? && w.resumption.cancelAfter then CancelRun(r)
    else if w.question then Emit(r.(status := AwaitingQuestion), QuestionRequired, None)
    else if call.PendingCall? then
      if call.allowed && !call.requiresApproval then r
      else if !call.allowed then Emit(r.(status := Queued), PermissionDenied, None)
      else Emit(r.(status := AwaitingApproval, pendingAction := true), ApprovalRequired, None)
    else Emit(r.(status := RunFailed), RunFailedEvent, r.active)
  }

  function JudgedTask(r: Run, w: Worker): Option<TaskId>
    requires w.Working? && w.report.Some?
  {
    if r.active.Some? then r.active else w.report.value.task
  }

  function Conclude(r: Run, w: Worker, call: Call, repair: bool): Run
    requires w.Working?
  {
    if Judging(w, call) then TaskOutcome(r, JudgedTask(r, w), w.report.value.success, repair) else Pause(r, w, call)
  }

  function Finish(s: State, acts: seq<AgentEvent>, call: Call, repair: bool): State {
    if !Streaming(s) then s
    else
      var d := Drain(s, acts);
      if d.None? then Raise(s)
      else State(Conclude(Emit(d.value.run, Usage, None), d.value.worker, call, repair), Idle)
  }

  // ---------------------------------------------------------------- watchdog and API routes

  predicate Busy(status: RunStatus) {
    status in {Running, Cancelling}
  }

  function Retries(m: map<TaskId, int>, t: TaskId): int {
    if t in m then m[t] else 0
  }

  /** The per-task heartbeat watchdog, on a run whose active task has gone silent. */
  function Watchdog(s: State): State {
    var r := s.run;
    if !(Busy(r.status) && r.active.Some?) then s
    else
      var t := r.active.value;
      var n := Retries(r.taskRetries, t);
      if n < MAX_TASK_RETRIES then
        var q := r.(taskRetries := r.taskRetries[t := n + 1], graph := WithStatus(r.graph, r.active, Pending),
                    active := None, status := Queued);
        s.(run := Emit(Emit(q, TaskRecovering, r.active), RunQueuedEvent, r.active))
      else
        var f := r.(status := RunFailed, graph := WithStatus(r.graph, r.active, Failed));
        s.(run := Emit(Emit(f, TaskFailed, r.active), RunFailedEvent, r.active))
  }

  function Fallback(s: State): State {
    if Busy(s.run.status) then s.(run := Emit(s.run.(status := Queued), RunQueuedEvent, None)) else s
  }

  function CancelRequest(s: State): State {
    var r := s.run;
    if r.status !in {Queued, Running, AwaitingQuestion, AwaitingApproval} then s
    else if r.status == Running then
      s.(run := Emit(r.(status := Cancelling), CancellationRequested, None))
    else if r.status == AwaitingApproval && r.pendingAction then
      s.(run := Emit(r.(status := Queued, pendingAction := false), CancellationRequested, None))
    else
      var c := if r.active.Some?
               then Emit(r.(graph := WithStatus(r.graph, r.active, Cancelled)), TaskCancelled, r.active).(active := None)
               else r;
      s.(run := Emit(Emit(c.(status := RunCancelled), CancellationRequested, None), RunCancelledEvent, None))
  }

  function AnswerQuestion(s: State): State {
    if s.run.status == AwaitingQuestion
    then s.(run := Emit(s.run.(status := Queued), QuestionAnswered, None)) else s
  }

  function ExpireQuestion(s: State): State {
    if s.run.status == AwaitingQuestion
    then s.(run := Emit(s.run.(status := RunExpired), RunExpiredEvent, None)) else s
  }

  function DecideAction(s: State): State {
    if s.run.pendingAction
    then s.(run := Emit(Emit(s.run.(status := Queued, pendingAction := false), ApprovalDecided, None),
                        RunQueuedEvent, s.run.active)) else s
  }

  function ExpireAction(s: State): State {
    if s.run.pendingAction
    then s.(run := Emit(s.run.(status := RunExpired, pendingAction := false), RunExpiredEvent, None)) else s
  }

  /** The API process noticed that no worker is alive. */
  function Interrupt(s: State): State {
    if s.run.status in {Queued, Running}
    then s.(run := Emit(s.run.(status := RunInterrupted, active := None), RunInterruptedEvent, None)) else s
  }

  /** Clearing a chat cancels active runs in bulk, without touching their tasks or their logs. */
  function ClearChat(s: State): State {
    var r := s.run.(pendingAction := false);
    s.(run := if r.status in {Queued, Running, AwaitingQuestion, AwaitingApproval, Cancelling}
              then r.(status := RunCancelled) else r)
  }

  function RecordPackaging(s: State, report: PackageReport): State {
    s.(run := s.run.(checks := ReevaluateAll(s.run.checks, report)))
  }

  // ---------------------------------------------------------------- steps

  datatype Step =
    | DoStart | DoResume | DoResumeAction(resumption: Resumption) | DoRejectAction
    | DoChunk(acts: seq<AgentEvent>) | DoFinish(lastActs: seq<AgentEvent>, call: Call) | DoRaise | DoLoseWorker
    | DoWatchdog | DoFallback | DoCancelRequest | DoAnswerQuestion | DoExpireQuestion
    | DoDecideAction | DoExpireAction | DoInterrupt | DoClearChat | DoRecordPackaging(report: PackageReport)

  /** Steps of the API, of the fallback, and the loss of a worker: they carry nothing and judge nothing. */
  predicate IsRoute(step: Step) {
    match step
    case DoFallback => true
    case DoCancelRequest => true
    case DoAnswerQuestion => true
    case DoExpireQuestion => true
    case DoDecideAction => true
    case DoExpireAction => true
    case DoInterrupt => true
    case DoClearChat => true
    case DoLoseWorker => true
    case _ => false
  }

  /** `repair` is the deployment-wide autonomous repair switch. */
  function Apply(s: State, step: Step, repair: bool): State {
    match step
    case DoStart => Start(s)
    case DoResume => Resume(s)
    case DoResumeAction(resumption) => ResumeAction(s, resumption)
    case DoRejectAction => RejectAction(s)
    case DoChunk(acts) => Chunk(s, acts)
    case DoFinish(acts, call) => Finish(s, acts, call, repair)
    case DoRaise => Raise(s)
    case DoLoseWorker => s.(worker := Idle)
    case DoWatchdog => Watchdog(s)
    case DoFallback => Fallback(s)
    case DoCancelRequest => CancelRequest(s)
    case DoAnswerQuestion => AnswerQuestion(s)
    case DoExpireQuestion => ExpireQuestion(s)
    case DoDecideAction => DecideAction(s)
    case DoExpireAction => ExpireAction(s)
    case DoInterrupt => Interrupt(s)
    case DoClearChat => ClearChat(s)
    case DoRecordPackaging(report) => RecordPackaging(s, report)
  }

  function Execute(s: State, steps: seq<Step>, repair: bool): State
    decreases |steps|
  {
    if steps == [] then s
    else Apply(Execute(s, steps[..|steps| - 1], repair), steps[|steps| - 1], repair)
  }

  /**
   A run before its first transaction: newly planned, with every task pending; a retry that kept
   the done and cancelled tasks of the run it was copied from; or one that first asks which
   module it is about and has no graph.
   */
  ghost predicate Unstarted(s: State) {
    && UniqueIds(s.run.graph)
    && (forall i :: 0 <= i < |s.run.graph| ==> s.run.graph[i].status in {Pending, Done, Cancelled})
    && (s.run.status == Queued || (s.run.status == AwaitingQuestion && s.run.graph == []))
    && !s.run.started && s.run.active.None? && s.run.log == []
    && s.run.taskRetries == map[] && !s.run.pendingAction
    && s.worker == Idle
  }
}
