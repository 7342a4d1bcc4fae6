/**
 What one transaction of a run does, in terms of the stored row alone: which tasks change, which
 events are appended, what is left alone; and what follows for several transactions in a row.
 */
module RunLaws {
  import opened Wrappers
  import opened TaskGraph
  import opened RunModel
  import opened RunSafety
  import opened RunInvariant
  import opened RunProgress

  // ---------------------------------------------------------------- what a worker streams

  /** How each agent event is logged while `active` is the active task. */
  function Entry(a: AgentEvent, active: Option<TaskId>): Event {
    match a
    case StartTool => Event(ToolStarted, active)
    case OtherTool => Event(ToolOther, active)
    case CompleteTask(success) => Event(TaskReport, active)
    case AskQuestion => Event(QuestionRaised, None)
    case OtherActivity => Event(Activity, None)
  }

  /** At most forty tool starts of the active task in the log, these ones included. */
  predicate WithinBudget(r: Run, acts: seq<AgentEvent>) {
    r.active.Some? && StartTool in acts ==>
      multiset(r.log)[Event(ToolStarted, r.active)] + multiset(acts)[StartTool] <= 40
  }

  /** At most one report, a report of an earlier chunk included. */
  predicate ReportsOnce(w: Worker, acts: seq<AgentEvent>)
    requires w.Working?
  {
    && (forall j, k :: 0 <= j < k < |acts| ==> !(acts[j].CompleteTask? && acts[k].CompleteTask?))
    && (w.report.Some? ==> forall k :: 0 <= k < |acts| ==> !acts[k].CompleteTask?)
  }

  /** What the worker remembers once it has drained `acts`. */
  ghost predicate Remembers(s: State, acts: seq<AgentEvent>, w: Worker)
    requires s.worker.Working?
  {
    && w.Working? && w.resumption == s.worker.resumption
    && (w.question <==> s.worker.question || AskQuestion in acts)
    && (forall k :: 0 <= k < |acts| && acts[k].CompleteTask? ==> w.report == Some(Report(s.run.active, acts[k].success)))
    && ((forall k :: 0 <= k < |acts| ==> !acts[k].CompleteTask?) ==> w.report == s.worker.report)
  }

  function Entries(acts: seq<AgentEvent>, active: Option<TaskId>): seq<Event> {
    seq(|acts|, k requires 0 <= k < |acts| => Entry(acts[k], active))
  }

  lemma {:induction false} CountIsMultiplicity(log: seq<Event>, e: Event)
    ensures Count(log, e) == multiset(log)[e]
  {
    if log != [] {
      assert log == log[..|log| - 1] + [log[|log| - 1]];
      CountIsMultiplicity(log[..|log| - 1], e);
    }
  }

  lemma DrainOneExact(s: State, a: AgentEvent)
    requires s.worker.Working?
    ensures DrainOne(s, a).Some? <==> WithinBudget(s.run, [a]) && (a.CompleteTask? ==> s.worker.report.None?)
    ensures DrainOne(s, a).Some? ==> DrainOne(s, a).value.run == s.run.(log := s.run.log + [Entry(a, s.run.active)])
    ensures DrainOne(s, a).Some? ==> Remembers(s, [a], DrainOne(s, a).value.worker)
  {
    CountIsMultiplicity(s.run.log, Event(ToolStarted, s.run.active));
    if a == StartTool { assert multiset([a])[StartTool] == 1; }
    assert [a][0] == a;
  }

  lemma BudgetSplits(r: Run, a: AgentEvent, rest: seq<AgentEvent>)
    ensures WithinBudget(r, [a] + rest) <==>
            WithinBudget(r, [a]) && WithinBudget(r.(log := r.log + [Entry(a, r.active)]), rest)
  {
    var e, after := Event(ToolStarted, r.active), r.log + [Entry(a, r.active)];
    assert multiset(after)[e] == multiset(r.log)[e] + if a == StartTool then 1 else 0;
    assert multiset([a] + rest)[StartTool] == multiset(rest)[StartTool] + if a == StartTool then 1 else 0;
    assert StartTool in rest <==> multiset(rest)[StartTool] > 0;
    assert StartTool in [a] + rest <==> a == StartTool || StartTool in rest;
    assert StartTool in [a] <==> a == StartTool;
    assert multiset([a])[StartTool] == if a == StartTool then 1 else 0;
  }

  lemma ReportsSplit(w: Worker, v: Worker, a: AgentEvent, rest: seq<AgentEvent>)
    requires w.Working? && v.Working?
    requires a.CompleteTask? ==> w.report.None? && v.report.Some?
    requires !a.CompleteTask? ==> v.report == w.report
    ensures ReportsOnce(w, [a] + rest) <==> ReportsOnce(v, rest)
  {
    var acts := [a] + rest;
    assert forall k :: 0 <= k < |rest| ==> rest[k] == acts[k + 1];
    assert acts[0] == a;
    if ReportsOnce(v, rest) {
      forall j, k | 0 <= j < k < |acts| ensures !(acts[j].CompleteTask? && acts[k].CompleteTask?) {
        assert acts[k] == rest[k - 1];
        if j > 0 { assert acts[j] == rest[j - 1]; }
      }
    }
  }

  lemma MemoryJoins(s: State, m: State, a: AgentEvent, rest: seq<AgentEvent>, w: Worker)
    requires s.worker.Working? && m.worker.Working? && m.run.active == s.run.active
    requires Remembers(s, [a], m.worker) && Remembers(m, rest, w)
    requires a.CompleteTask? ==> forall k :: 0 <= k < |rest| ==> !rest[k].CompleteTask?
    ensures Remembers(s, [a] + rest, w)
  {
    var acts := [a] + rest;
    assert [a][0] == a == acts[0];
    assert forall k :: 0 <= k < |rest| ==> rest[k] == acts[k + 1];
    assert AskQuestion in acts <==> a == AskQuestion || AskQuestion in rest;
    forall k | 0 <= k < |acts| && acts[k].CompleteTask? ensures w.report == Some(Report(s.run.active, acts[k].success)) {
      if k > 0 { assert acts[k] == rest[k - 1]; }
    }
  }

  ghost predicate Drained(s: State, acts: seq<AgentEvent>)
    requires s.worker.Working?
  {
    && (Drain(s, acts).Some? <==> WithinBudget(s.run, acts) && ReportsOnce(s.worker, acts))
    && (Drain(s, acts).Some? ==>
          && Drain(s, acts).value.run == s.run.(log := s.run.log + Entries(acts, s.run.active))
          && Remembers(s, acts, Drain(s, acts).value.worker))
  }

  /** The worker's events are accepted exactly within the tool budget and with one report, and all are logged. */
  lemma {:induction false} DrainExact(s: State, acts: seq<AgentEvent>)
    requires s.worker.Working?
    ensures Drained(s, acts)
    decreases |acts|
  {
    if acts == [] {
      assert s.run.log + Entries(acts, s.run.active) == s.run.log;
    } else {
      var a, rest := acts[0], acts[1..];
      assert acts == [a] + rest;
      DrainOneExact(s, a);
      if DrainOne(s, a).Some? {
        DrainExact(DrainOne(s, a).value, rest);
        DrainJoins(s, a, rest);
      } else {
        BudgetSplits(s.run, a, rest);
        if a.CompleteTask? { assert !ReportsOnce(s.worker, acts); }
      }
    }
  }

  lemma DrainStep(s: State, a: AgentEvent, rest: seq<AgentEvent>)
    requires s.worker.Working? && DrainOne(s, a).Some?
    ensures Drain(s, [a] + rest) == Drain(DrainOne(s, a).value, rest)
  {
    assert ([a] + rest)[1..] == rest;
  }

  lemma EntriesJoin(log: seq<Event>, a: AgentEvent, rest: seq<AgentEvent>, active: Option<TaskId>)
    ensures log + Entries([a] + rest, active) == log + [Entry(a, active)] + Entries(rest, active)
  {
    assert Entries([a] + rest, active) == [Entry(a, active)] + Entries(rest, active);
  }

  /** The step of the induction: what is said of the rest is said of the whole. */
  lemma DrainJoins(s: State, a: AgentEvent, rest: seq<AgentEvent>)
    requires s.worker.Working? && DrainOne(s, a).Some?
    requires DrainOne(s, a).value.worker.Working? && Drained(DrainOne(s, a).value, rest)
    ensures Drained(s, [a] + rest)
  {
    var m := DrainOne(s, a).value;
    DrainStep(s, a, rest);
    DrainOneExact(s, a);
    assert [a][0] == a;
    BudgetSplits(s.run, a, rest);
    ReportsSplit(s.worker, m.worker, a, rest);
    if Drain(m, rest).Some? {
      EntriesJoin(s.run.log, a, rest, s.run.active);
      if a.CompleteTask? { assert m.worker.report.Some?; }
      MemoryJoins(s, m, a, rest, Drain(m, rest).value.worker);
    }
  }

  // ---------------------------------------------------------------- how the closing transaction ends

  /** The run after the last events and the usage were logged. */
  function Used(s: State, acts: seq<AgentEvent>): Run
    requires s.worker.Working?
  {
    s.run.(log := s.run.log + Entries(acts, s.run.active) + [Event(Usage, None)])
  }

  /** The closing transaction commits: nothing it drains is refused. */
  predicate Closes(s: State, acts: seq<AgentEvent>) {
    s.worker.Working? && !s.worker.resumption.Rejected? && WithinBudget(s.run, acts) && ReportsOnce(s.worker, acts)
  }

  predicate CancelsAfter(w: Worker) {
    w.Working? && w.resumption.Approved? && w.resumption.cancelAfter
  }

  predicate Asked(s: State, acts: seq<AgentEvent>) {
    s.worker.Working? && (s.worker.question || AskQuestion in acts)
  }

  /** Only the tasks named `id` change, and only to this status. */
  ghost predicate Retags(g: Graph, h: Graph, id: Option<TaskId>, status: Status) {
    && |h| == |g|
    && forall i :: 0 <= i < |g| ==> h[i] == if id == Some(g[i].id) then g[i].(status := status) else g[i]
  }

  /** A pending call that the policy does not allow requeues the run, and never waits for a human. */
  lemma DeniedCallRequeues(s: State, acts: seq<AgentEvent>, requiresApproval: bool, repair: bool)
    requires Closes(s, acts) && !CancelsAfter(s.worker) && !Asked(s, acts)
    ensures Finish(s, acts, PendingCall(false, requiresApproval), repair)
            == State(Used(s, acts).(status := Queued, log := Used(s, acts).log + [Event(PermissionDenied, None)]), Idle)
  {
    DrainExact(s, acts);
  }

  /** One that it allows leaves the run as it is, and one that needs approval makes it wait. */
  lemma AllowedCallEnds(s: State, acts: seq<AgentEvent>, requiresApproval: bool, repair: bool)
    requires Closes(s, acts) && !CancelsAfter(s.worker) && !Asked(s, acts)
    ensures var r := Used(s, acts);
            Finish(s, acts, PendingCall(true, requiresApproval), repair)
            == State(if requiresApproval
                     then r.(status := AwaitingApproval, pendingAction := true, log := r.log + [Event(ApprovalRequired, None)])
                     else r, Idle)
  {
    DrainExact(s, acts);
  }

  /** A question goes before any pending call or report. */
  lemma QuestionSuspends(s: State, acts: seq<AgentEvent>, call: Call, repair: bool)
    requires Closes(s, acts) && !CancelsAfter(s.worker) && Asked(s, acts)
    ensures Finish(s, acts, call, repair)
            == State(Used(s, acts).(status := AwaitingQuestion, log := Used(s, acts).log + [Event(QuestionRequired, None)]), Idle)
  {
    DrainExact(s, acts);
  }

  /** The run is cancelled, and its active task with it. */
  ghost predicate CancelledFrom(r: Run, q: Run) {
    && Retags(r.graph, q.graph, r.active, Cancelled)
    && q == r.(graph := q.graph, status := RunCancelled, active := None, log := q.log)
    && q.log == r.log + (if r.active.None? || Event(TaskCancelled, r.active) in r.log then [] else [Event(TaskCancelled, r.active)])
                + [Event(RunCancelledEvent, None)]
  }

  lemma CancelledRun(r: Run)
    ensures CancelledFrom(r, CancelRun(r))
  {
    assert r.log + [] == r.log;
  }

  /** A cancellation that came with the approval goes before everything else. */
  lemma CancelAfterApproval(s: State, acts: seq<AgentEvent>, call: Call, repair: bool)
    requires Closes(s, acts) && CancelsAfter(s.worker)
    ensures Finish(s, acts, call, repair).worker == Idle
    ensures CancelledFrom(Used(s, acts), Finish(s, acts, call, repair).run)
  {
    DrainExact(s, acts);
    CancelledRun(Used(s, acts));
  }

  /** The report to judge: an earlier one, or the one among these events. */
  ghost predicate Reports(s: State, acts: seq<AgentEvent>, report: Report) {
    && s.worker.Working?
    && (s.worker.report == Some(report)
        || exists k :: 0 <= k < |acts| && acts[k].CompleteTask? && report == Report(s.run.active, acts[k].success))
  }

  /** Without a question, a call or a report the run fails, and its task is left where it is. */
  lemma SilenceFails(s: State, acts: seq<AgentEvent>, repair: bool)
    requires Closes(s, acts) && !CancelsAfter(s.worker) && !Asked(s, acts)
    requires forall report :: !Reports(s, acts, report)
    ensures Finish(s, acts, NoCall, repair)
            == State(Used(s, acts).(status := RunFailed, log := Used(s, acts).log + [Event(RunFailedEvent, s.run.active)]), Idle)
  {
    DrainExact(s, acts);
    forall k | 0 <= k < |acts| ensures !acts[k].CompleteTask? {
      if acts[k].CompleteTask? { assert Reports(s, acts, Report(s.run.active, acts[k].success)); }
    }
    if s.worker.report.Some? { assert Reports(s, acts, s.worker.report.value); }
  }

  /** Every required check of the task has passed, and the verification task has one. */
  ghost predicate Evidence(checks: seq<Check>, id: Option<TaskId>) {
    && id.Some?
    && (forall i :: 0 <= i < |checks| && checks[i].required && checks[i].task == id ==> checks[i].status == CheckPassed)
    && (id == Some("validate_and_verify") ==> exists i :: 0 <= i < |checks| && checks[i].required && checks[i].task == id)
  }

  lemma GateIsEvidence(checks: seq<Check>, id: Option<TaskId>)
    ensures AcceptanceGate(checks, id) <==> Evidence(checks, id)
  {
    if AcceptanceGate(checks, id) && id == Some("validate_and_verify") {
      var i :| 0 <= i < |checks| && Owes(checks[i], id);
    }
    if Evidence(checks, id) {
      assert forall i :: 0 <= i < |checks| && Owes(checks[i], id) ==> checks[i].status == CheckPassed;
      if id == Some("validate_and_verify") {
        var i :| 0 <= i < |checks| && checks[i].required && checks[i].task == id;
        assert Owes(checks[i], id);
      }
    }
  }

  /** The task a report is about. */
  function Subject(r: Run, report: Report): Option<TaskId> {
    if r.active.Some? then r.active else report.task
  }

  predicate Judged(s: State, acts: seq<AgentEvent>) {
    Closes(s, acts) && !CancelsAfter(s.worker) && !Asked(s, acts)
  }

  lemma JudgedReport(s: State, acts: seq<AgentEvent>, report: Report, repair: bool)
    requires Judged(s, acts) && Reports(s, acts, report)
    ensures Finish(s, acts, NoCall, repair)
            == State(TaskOutcome(Used(s, acts), Subject(s.run, report), report.success, repair), Idle)
  {
    DrainExact(s, acts);
  }

  function Unlogged(log: seq<Event>, kind: Kind, task: Option<TaskId>): seq<Event> {
    if Event(kind, task) in log then [] else [Event(kind, task)]
  }

  /** What follows a completed task: the first task that is now ready, the end of the run, or the verdict. */
  ghost predicate MovesOn(r: Run, q: Run, id: Option<TaskId>) {
    var log := r.log + Unlogged(r.log, TaskCompleted, id);
    && q == r.(graph := q.graph, status := q.status, active := q.active, log := q.log)
    && (forall i :: IsFirstReady(q.graph, i) ==>
          q.status == Queued && q.active == Some(q.graph[i].id) && q.log == log + [Event(RunQueuedEvent, q.active)])
    && ((forall i :: 0 <= i < |q.graph| ==> q.graph[i].status == Done) ==>
          q.status == RunSucceeded && q.active.None?
          && q.log == log + [Event(SupervisorComplete, None), Event(FinalReport, None),
                             Event(RunCompletedEvent, None), Event(MessageDelta, None)])
    && (!(exists i :: IsFirstReady(q.graph, i)) && (exists i :: 0 <= i < |q.graph| && q.graph[i].status != Done) ==>
          q.status == RunFailed && q.active.None? && q.log == log + [Event(RunDeadlocked, None)])
  }

  ghost predicate IsFirstReady(g: Graph, i: int) {
    0 <= i < |g| && Ready(g, g[i]) && forall j :: 0 <= j < i ==> !Ready(g, g[j])
  }

  lemma NextIsFirstReady(g: Graph)
    ensures NextTask(g).Some? <==> exists i :: IsFirstReady(g, i)
    ensures forall i :: IsFirstReady(g, i) ==> NextTask(g) == Some(g[i])
  {
    if NextTask(g).Some? {
      var i :| 0 <= i < |g| && g[i] == NextTask(g).value && Ready(g, g[i]) && forall j :: 0 <= j < i ==> !Ready(g, g[j]);
      assert IsFirstReady(g, i);
      forall k | IsFirstReady(g, k) ensures k == i {
        if k < i { assert false; }
        if i < k { assert false; }
      }
    }
  }

  lemma AnnounceMovesOn(c: Run)
    ensures var q := Announce(c);
            && q == c.(status := q.status, active := q.active, log := q.log)
            && (NextTask(c.graph).Some? ==>
                  q.status == Queued && q.active == Some(NextTask(c.graph).value.id)
                  && q.log == c.log + [Event(RunQueuedEvent, q.active)])
            && (NextTask(c.graph).None? && IsComplete(c.graph) ==>
                  q.status == RunSucceeded && q.active == c.active
                  && q.log == c.log + [Event(SupervisorComplete, None), Event(FinalReport, None),
                                       Event(RunCompletedEvent, None), Event(MessageDelta, None)])
            && (NextTask(c.graph).None? && !IsComplete(c.graph) ==>
                  q.status == RunFailed && q.active == c.active && q.log == c.log + [Event(RunDeadlocked, None)])
  {
  }

  /** An accepted report of success finishes its task and moves the run on. */
  lemma AcceptedReportMovesOn(s: State, acts: seq<AgentEvent>, report: Report, repair: bool)
    requires Judged(s, acts) && Reports(s, acts, report)
    requires report.success && Evidence(s.run.checks, Subject(s.run, report))
    ensures Finish(s, acts, NoCall, repair).worker == Idle
    ensures Retags(s.run.graph, Finish(s, acts, NoCall, repair).run.graph, Subject(s.run, report), Done)
    ensures MovesOn(Used(s, acts), Finish(s, acts, NoCall, repair).run, Subject(s.run, report))
  {
    var r, id := Used(s, acts), Subject(s.run, report);
    JudgedReport(s, acts, report, repair);
    GateIsEvidence(s.run.checks, id);
    SucceedMovesOn(r, id);
  }

  lemma SucceedMovesOn(r: Run, id: Option<TaskId>)
    ensures Retags(r.graph, Succeed(r, id).graph, id, Done)
    ensures MovesOn(r, Succeed(r, id), id)
  {
    var c := EmitOnce(r.(graph := WithStatus(r.graph, id, Done), active := None), TaskCompleted, id);
    EmitOnceLog(r.(graph := WithStatus(r.graph, id, Done), active := None), TaskCompleted, id);
    assert c.log == r.log + Unlogged(r.log, TaskCompleted, id);
    AnnounceMovesOn(c);
    NextIsFirstReady(c.graph);
  }

  /** The failed task may be tried again: the repair switch is on and its own budget is not used up. */
  ghost predicate MayRetry(g: Graph, id: Option<TaskId>, repair: bool) {
    repair && exists i :: 0 <= i < |g| && id == Some(g[i].id) && g[i].retryCount < g[i].maxRetries
  }

  ghost predicate Retried(r: Run, q: Run, id: Option<TaskId>) {
    && |q.graph| == |r.graph|
    && (forall i :: 0 <= i < |r.graph| ==>
          q.graph[i] == if id == Some(r.graph[i].id)
                        then r.graph[i].(status := Pending, retryCount := r.graph[i].retryCount + 1) else r.graph[i])
    && q == r.(graph := q.graph, status := Queued, active := None, log := r.log + Unlogged(r.log, TaskRetrying, id))
  }

  ghost predicate GivenUp(r: Run, q: Run, id: Option<TaskId>) {
    && Retags(r.graph, q.graph, id, Failed)
    && q == r.(graph := q.graph, status := RunFailed, active := None,
               log := r.log + Unlogged(r.log, TaskFailed, id) + [Event(FinalReport, None), Event(RunFailedEvent, id)])
  }

  lemma RequeueIsRetry(g: Graph, id: Option<TaskId>, repair: bool)
    requires UniqueIds(g) && CanRequeue(WithStatus(g, id, Failed), id, repair)
    ensures MayRetry(g, id, repair)
  {
    FoundMayRetry(g, id, repair);
    var i := RequeuedIndex(g, id);
  }

  lemma RetryIsRequeue(g: Graph, id: Option<TaskId>, repair: bool)
    requires UniqueIds(g) && MayRetry(g, id, repair)
    ensures CanRequeue(WithStatus(g, id, Failed), id, repair)
  {
    var i :| 0 <= i < |g| && id == Some(g[i].id) && g[i].retryCount < g[i].maxRetries;
    var f := WithStatus(g, id, Failed);
    assert id == Some(f[i].id);
    FindInGraph(f, id);
  }

  lemma RequeueFrame(r: Run, id: Option<TaskId>, repair: bool)
    requires CanRequeue(WithStatus(r.graph, id, Failed), id, repair)
    ensures var f := WithStatus(r.graph, id, Failed);
            FailTask(r, id, repair)
            == r.(graph := WithRetry(f, id, Find(f, id).value.retryCount + 1), status := Queued, active := None,
                  log := r.log + Unlogged(r.log, TaskRetrying, id))
  {
    var f := WithStatus(r.graph, id, Failed);
    EmitOnceLog(r.(graph := WithRetry(f, id, Find(f, id).value.retryCount + 1), active := None, status := Queued), TaskRetrying, id);
  }

  lemma FailRetries(r: Run, id: Option<TaskId>, repair: bool)
    requires UniqueIds(r.graph) && MayRetry(r.graph, id, repair)
    ensures Retried(r, FailTask(r, id, repair), id)
  {
    RetryIsRequeue(r.graph, id, repair);
    RequeueFrame(r, id, repair);
    RetriedGraph(r.graph, id);
  }

  lemma RetriedGraph(g: Graph, id: Option<TaskId>)
    requires UniqueIds(g) && Find(WithStatus(g, id, Failed), id).Some?
    ensures var f := WithStatus(g, id, Failed);
            var h := WithRetry(f, id, Find(f, id).value.retryCount + 1);
            |h| == |g| && forall i :: 0 <= i < |g| ==>
              h[i] == if id == Some(g[i].id) then g[i].(status := Pending, retryCount := g[i].retryCount + 1) else g[i]
  {
    RequeueCounts(g, id);
  }

  lemma FailGivesUp(r: Run, id: Option<TaskId>, repair: bool)
    requires UniqueIds(r.graph) && !MayRetry(r.graph, id, repair)
    ensures GivenUp(r, FailTask(r, id, repair), id)
  {
    if CanRequeue(WithStatus(r.graph, id, Failed), id, repair) { RequeueIsRetry(r.graph, id, repair); }
    GiveUpFrame(r, id, repair);
  }

  lemma GiveUpFrame(r: Run, id: Option<TaskId>, repair: bool)
    requires !CanRequeue(WithStatus(r.graph, id, Failed), id, repair)
    ensures FailTask(r, id, repair)
            == r.(graph := WithStatus(r.graph, id, Failed), status := RunFailed, active := None,
                  log := r.log + Unlogged(r.log, TaskFailed, id) + [Event(FinalReport, None), Event(RunFailedEvent, id)])
  {
    EmitOnceLog(r.(graph := WithStatus(r.graph, id, Failed), active := None), TaskFailed, id);
  }

  /** A report of failure, or one without its evidence, costs one retry or the run. */
  lemma RefusedReportRetriesOrFails(s: State, acts: seq<AgentEvent>, report: Report, repair: bool)
    requires UniqueIds(s.run.graph) && Judged(s, acts) && Reports(s, acts, report)
    requires !(report.success && Evidence(s.run.checks, Subject(s.run, report)))
    ensures Finish(s, acts, NoCall, repair).worker == Idle
    ensures var q, id := Finish(s, acts, NoCall, repair).run, Subject(s.run, report);
            if MayRetry(s.run.graph, id, repair) then Retried(Used(s, acts), q, id) else GivenUp(Used(s, acts), q, id)
  {
    var r, id := Used(s, acts), Subject(s.run, report);
    JudgedReport(s, acts, report, repair);
    GateIsEvidence(s.run.checks, id);
    if MayRetry(s.run.graph, id, repair) { FailRetries(r, id, repair); } else { FailGivesUp(r, id, repair); }
  }

  // ---------------------------------------------------------------- failing and streaming

  /** The run fails, and its active task with it. */
  ghost predicate FailedFrom(r: Run, q: Run) {
    && Retags(r.graph, q.graph, r.active, Failed)
    && q == r.(graph := q.graph, status := RunFailed, started := true, active := None, log := q.log)
    && q.log == r.log + (if r.active.None? then [] else Unlogged(r.log, TaskFailed, r.active)) + [Event(RunFailedEvent, r.active)]
  }

  /** An exception fails the run unless it had ended before the handler began. */
  lemma ExceptionFails(s: State)
    ensures Raise(s).worker == Idle
    ensures if s.worker.Idle? && s.run.status in {RunSucceeded, RunFailed, RunCancelled}
            then Raise(s) == s else FailedFrom(s.run, Raise(s).run)
  {
    assert s.run.log + [] == s.run.log;
  }

  /** Events over the budget, or a second report, are rolled back and fail the run, in whichever transaction they come. */
  lemma RefusedEventsFail(s: State, acts: seq<AgentEvent>, call: Call, repair: bool)
    requires s.worker.Working? && !s.worker.resumption.Rejected?
    requires !(WithinBudget(s.run, acts) && ReportsOnce(s.worker, acts))
    ensures Finish(s, acts, call, repair).worker == Idle && FailedFrom(s.run, Finish(s, acts, call, repair).run)
    ensures s.run.status != Cancelling ==> Chunk(s, acts).worker == Idle && FailedFrom(s.run, Chunk(s, acts).run)
  {
    DrainExact(s, acts);
    ExceptionFails(s);
  }

  /** A chunk of a run that is not being cancelled only logs and remembers. */
  lemma ChunkLogs(s: State, acts: seq<AgentEvent>)
    requires Closes(s, acts) && s.run.status != Cancelling
    ensures Chunk(s, acts).run
            == s.run.(log := s.run.log + Entries(acts, s.run.active) + [Event(MessageDelta, None)])
    ensures Remembers(s, acts, Chunk(s, acts).worker)
  {
    DrainExact(s, acts);
  }

  // ---------------------------------------------------------------- taking up a task

  /** The handler begins, with `id` as the task in progress. */
  ghost predicate TakenUp(r: Run, q: Run, id: Option<TaskId>, planned: seq<Event>) {
    && Retags(r.graph, q.graph, id, InProgress)
    && q == r.(graph := q.graph, status := Running, started := true, active := id, log := q.log)
    && q.log == r.log + planned + Unlogged(r.log, TaskStarted, id) + [Event(RunStartedEvent, None)]
  }

  /** The handler begins and keeps the active task, if any. */
  ghost predicate Continued(r: Run, q: Run) {
    q == r.(status := Running, started := true, log := r.log + [Event(RunStartedEvent, None)])
  }

  predicate Handled(s: State) {
    s.worker.Idle? && s.run.status !in {RunSucceeded, RunFailed, RunCancelled}
  }

  lemma BeginTakesUp(r: Run, resumption: Resumption, next: Task, plan: bool)
    requires r.status != Cancelling
    ensures Begin(r, resumption, Some(next), plan).worker == Working(resumption, None, false)
    ensures TakenUp(r, Begin(r, resumption, Some(next), plan).run, Some(next.id),
                    if plan then [Event(SupervisorPlan, Some(next.id))] else [])
  {
    var es := BeginEdits(r, resumption, next, plan);
    var planned := if plan then [Event(SupervisorPlan, Some(next.id))] else [];
    assert Event(TaskStarted, Some(next.id)) in r.log + planned <==> Event(TaskStarted, Some(next.id)) in r.log;
    assert r.log + [] == r.log;
  }

  /** The first handler of a run takes up the first ready task, if there is one. */
  lemma StartTakesFirstReady(s: State)
    requires Handled(s) && !s.run.started && s.run.status != Cancelling
    ensures Start(s).worker == Working(Plain, None, false)
    ensures forall i :: IsFirstReady(s.run.graph, i) ==>
              TakenUp(s.run, Start(s).run, Some(s.run.graph[i].id), [Event(SupervisorPlan, Some(s.run.graph[i].id))])
    ensures !(exists i :: IsFirstReady(s.run.graph, i)) ==> Continued(s.run, Start(s).run)
  {
    var next := NextTask(s.run.graph);
    NextIsFirstReady(s.run.graph);
    if next.Some? { BeginTakesUp(s.run, Plain, next.value, true); }
  }

  ghost predicate IsFirstInProgress(g: Graph, i: int) {
    0 <= i < |g| && g[i].status == InProgress && forall j :: 0 <= j < i ==> g[j].status != InProgress
  }

  lemma {:induction false} FirstInProgressFrom(g: Graph, from: nat, i: nat)
    requires from <= i < |g| && g[i].status == InProgress && forall j :: from <= j < i ==> g[j].status != InProgress
    ensures FirstInProgress(g, from) == Some(g[i])
    decreases i - from
  {
    if from < i { FirstInProgressFrom(g, from + 1, i); }
  }

  lemma {:induction false} NoneInProgress(g: Graph, from: nat)
    requires from <= |g| && forall i :: from <= i < |g| ==> g[i].status != InProgress
    ensures FirstInProgress(g, from).None?
    decreases |g| - from
  {
    if from < |g| { NoneInProgress(g, from + 1); }
  }

  /** A resumed run goes on with the task in progress, and only without one takes up the first ready task. */
  lemma ResumeTakesUp(s: State)
    requires Handled(s) && (s.run.started || s.run.graph == []) && s.run.status != Cancelling
    ensures Resume(s).worker == Working(Plain, None, false)
    ensures forall i :: IsFirstInProgress(s.run.graph, i) ==> TakenUp(s.run, Resume(s).run, Some(s.run.graph[i].id), [])
    ensures (forall i :: 0 <= i < |s.run.graph| ==> s.run.graph[i].status != InProgress) ==>
              && (forall i :: IsFirstReady(s.run.graph, i) ==> TakenUp(s.run, Resume(s).run, Some(s.run.graph[i].id), []))
              && (!(exists i :: IsFirstReady(s.run.graph, i)) ==> Continued(s.run, Resume(s).run))
  {
    var g := s.run.graph;
    var next := NextOnResume(g);
    if next.Some? { BeginTakesUp(s.run, Plain, next.value, false); }
    forall i | IsFirstInProgress(g, i) ensures next == Some(g[i]) { FirstInProgressFrom(g, 0, i); }
    if forall i :: 0 <= i < |g| ==> g[i].status != InProgress {
      NoneInProgress(g, 0);
      NextIsFirstReady(g);
    }
  }

  /** After a decision on an action the handler keeps the active task. */
  lemma DecisionContinues(s: State, resumption: Resumption)
    requires Handled(s) && s.run.started && s.run.status != Cancelling
    ensures ResumeAction(s, resumption).worker == Working(resumption, None, false)
    ensures Continued(s.run, ResumeAction(s, resumption).run)
  {
  }

  /** Every handler of a run that is being cancelled cancels it. */
  lemma HandlersCancel(s: State, resumption: Resumption)
    requires s.worker.Idle? && s.run.status == Cancelling && s.run.started
    ensures Resume(s).worker == Idle && CancelledFrom(s.run, Resume(s).run)
    ensures ResumeAction(s, resumption) == Resume(s)
  {
    CancelledRun(s.run);
  }

  /** A rejected action fails the run, or cancels it if the rejection came from a cancellation. */
  lemma RejectionEnds(s: State)
    requires s.worker.Working? && s.worker.resumption.Rejected?
    ensures var c, q := s.worker.resumption.cancelAfter, RejectAction(s).run;
            var kind := if c then TaskCancelled else TaskFailed;
            && RejectAction(s).worker == Idle
            && Retags(s.run.graph, q.graph, s.run.active, if c then Cancelled else Failed)
            && q == s.run.(graph := q.graph, status := if c then RunCancelled else RunFailed, active := None, log := q.log)
            && q.log == s.run.log + [Event(TaskReport, s.run.active)]
                        + (if s.run.active.None? then [] else Unlogged(s.run.log, kind, s.run.active))
                        + [Event(FinalReport, None), Event(if c then RunCancelledEvent else RunFailedEvent, s.run.active)]
  {
    var r, c := s.run, s.worker.resumption.cancelAfter;
    var kind, head := if c then TaskCancelled else TaskFailed, [Event(TaskReport, r.active)];
    RejectEffect(s);
    assert Event(kind, r.active) in r.log + head <==> Event(kind, r.active) in r.log;
    assert r.log + RejectEvents(r, c)
           == r.log + head + (if r.active.None? then [] else Unlogged(r.log, kind, r.active))
              + [Event(FinalReport, None), Event(if c then RunCancelledEvent else RunFailedEvent, r.active)];
  }

  /** A silent task is tried again twice, and the third time fails the run. */
  lemma SilenceIsRecoveredTwice(s: State)
    requires s.run.status in {Running, Cancelling} && s.run.active.Some?
    ensures var r, q, t := s.run, Watchdog(s).run, s.run.active.value;
            var n := if t in r.taskRetries then r.taskRetries[t] else 0;
            && Watchdog(s).worker == s.worker
            && Retags(r.graph, q.graph, r.active, if n < 2 then Pending else Failed)
            && (if n < 2
                then q == r.(graph := q.graph, status := Queued, active := None, taskRetries := r.taskRetries[t := n + 1],
                             log := r.log + [Event(TaskRecovering, r.active), Event(RunQueuedEvent, r.active)])
                else q == r.(graph := q.graph, status := RunFailed,
                             log := r.log + [Event(TaskFailed, r.active), Event(RunFailedEvent, r.active)]))
  {
  }
}
