/**
 What users' requests and decisions do to a run over several transactions: cancelling, answering,
 approving, rejecting; and that a run which has come to rest stays as it is.
 */
module RunRequests {
  import opened Wrappers
  import opened TaskGraph
  import opened RunModel
  import opened RunSafety
  import opened RunInvariant
  import opened RunProgress
  import opened RunLaws

  // ---------------------------------------------------------------- cancelling

  /** A waiting run is cancelled at once, a running one is marked, and a pending action is rejected first. */
  lemma CancelRequestEffect(s: State)
    ensures var r, q := s.run, CancelRequest(s).run;
            && CancelRequest(s).worker == s.worker
            && (r.status == Running ==> q == r.(status := Cancelling, log := r.log + [Event(CancellationRequested, None)]))
            && (r.status == AwaitingApproval && r.pendingAction ==>
                  q == r.(status := Queued, pendingAction := false, log := r.log + [Event(CancellationRequested, None)]))
            && (r.status in {Queued, AwaitingQuestion} || (r.status == AwaitingApproval && !r.pendingAction) ==>
                  && Retags(r.graph, q.graph, r.active, Cancelled)
                  && q == r.(graph := q.graph, status := RunCancelled, active := None, log := q.log)
                  && q.log == r.log + (if r.active.None? then [] else [Event(TaskCancelled, r.active)])
                              + [Event(CancellationRequested, None), Event(RunCancelledEvent, None)])
            && (r.status !in {Queued, Running, AwaitingQuestion, AwaitingApproval} ==> q == r)
  {
    assert s.run.log + [] == s.run.log;
  }

  /** A request that reaches a running handler before its next chunk, or the next handler, cancels the run. */
  lemma CancellationIsHonoured(s: State, acts: seq<AgentEvent>, resumption: Resumption)
    requires s.run.status == Running && s.run.started
    ensures var t := CancelRequest(s);
            && (Streaming(s) ==> Chunk(t, acts).worker == Idle && CancelledFrom(t.run, Chunk(t, acts).run))
            && (s.worker.Idle? ==> CancelledFrom(t.run, Resume(t).run) && CancelledFrom(t.run, ResumeAction(t, resumption).run))
  {
    CancelRequestEffect(s);
    CancelledRun(CancelRequest(s).run);
  }

  /** How a completed task leaves the run depends on the graph alone. */
  lemma CompletionReadsGraph(r: Run, id: Option<TaskId>)
    ensures var h, q := WithStatus(r.graph, id, Done), Succeed(r, id);
            && q.graph == h
            && q.active == (if NextTask(h).Some? then Some(NextTask(h).value.id) else None)
            && q.status == if NextTask(h).Some? then Queued else if IsComplete(h) then RunSucceeded else RunFailed
  {
    SucceedGraph(r, id);
    AnnounceMovesOn(EmitOnce(r.(graph := WithStatus(r.graph, id, Done), active := None), TaskCompleted, id));
  }

  /** So does how a refused report leaves it. */
  lemma FailureReadsGraph(r: Run, q: Run, id: Option<TaskId>, repair: bool)
    requires q.graph == r.graph
    ensures var a, b := FailTask(r, id, repair), FailTask(q, id, repair);
            a.status == b.status && a.graph == b.graph && a.active == b.active
  {
    if CanRequeue(WithStatus(r.graph, id, Failed), id, repair) {
      RequeueFrame(r, id, repair);
      RequeueFrame(q, id, repair);
    } else {
      GiveUpFrame(r, id, repair);
      GiveUpFrame(q, id, repair);
    }
  }

  lemma SuccessReadsGraph(r: Run, q: Run, id: Option<TaskId>)
    requires q.graph == r.graph
    ensures var a, b := Succeed(r, id), Succeed(q, id);
            a.status == b.status && a.graph == b.graph && a.active == b.active
  {
    CompletionReadsGraph(r, id);
    CompletionReadsGraph(q, id);
  }

  lemma OutcomeIgnoresRequest(r: Run, q: Run, id: Option<TaskId>, success: bool, repair: bool)
    requires q == r.(status := q.status, log := q.log)
    ensures var a, b := TaskOutcome(r, id, success, repair), TaskOutcome(q, id, success, repair);
            a.status == b.status && a.graph == b.graph && a.active == b.active
  {
    if success && AcceptanceGate(r.checks, id) {
      SuccessReadsGraph(r, q, id);
    } else {
      FailureReadsGraph(r, q, id, repair);
    }
  }

  lemma UsedAfterRequest(s: State, acts: seq<AgentEvent>)
    requires s.worker.Working? && s.run.status == Running && WithinBudget(s.run, acts)
    ensures var t := CancelRequest(s);
            WithinBudget(t.run, acts) && Used(t, acts) == Used(s, acts).(status := Cancelling, log := Used(t, acts).log)
  {
    var log, e := s.run.log, Event(ToolStarted, s.run.active);
    assert multiset(log + [Event(CancellationRequested, None)])[e] == multiset(log)[e];
  }

  /**
   A request that comes after the last chunk is lost: the closing transaction ends as if nobody
   had asked, except on a call that needs no approval, whose resumption then cancels the run.
   */
  lemma LateRequestIsLost(s: State, acts: seq<AgentEvent>, call: Call, repair: bool)
    requires Closes(s, acts) && s.run.status == Running
    ensures var a, b := Finish(s, acts, call, repair).run, Finish(CancelRequest(s), acts, call, repair).run;
            var plain := !CancelsAfter(s.worker) && !Asked(s, acts) && call == PendingCall(true, false);
            && b.status == (if plain then Cancelling else a.status)
            && b.graph == a.graph && b.active == a.active && b.pendingAction == a.pendingAction
  {
    var t := CancelRequest(s);
    UsedAfterRequest(s, acts);
    if CancelsAfter(s.worker) {
      CancelAfterApproval(s, acts, call, repair);
      CancelAfterApproval(t, acts, call, repair);
    } else if Asked(s, acts) {
      QuestionSuspends(s, acts, call, repair);
      QuestionSuspends(t, acts, call, repair);
    } else {
      LateCallOrReport(s, acts, call, repair);
    }
  }

  lemma LateCallOrReport(s: State, acts: seq<AgentEvent>, call: Call, repair: bool)
    requires Judged(s, acts) && s.run.status == Running
    ensures var a, b := Finish(s, acts, call, repair).run, Finish(CancelRequest(s), acts, call, repair).run;
            && b.status == (if call == PendingCall(true, false) then Cancelling else a.status)
            && b.graph == a.graph && b.active == a.active && b.pendingAction == a.pendingAction
  {
    var t := CancelRequest(s);
    UsedAfterRequest(s, acts);
    match call
    case PendingCall(allowed, requiresApproval) =>
      if allowed {
        AllowedCallEnds(s, acts, requiresApproval, repair);
        AllowedCallEnds(t, acts, requiresApproval, repair);
      } else {
        DeniedCallRequeues(s, acts, requiresApproval, repair);
        DeniedCallRequeues(t, acts, requiresApproval, repair);
      }
    case NoCall => LateReport(s, acts, repair);
  }

  lemma LateReport(s: State, acts: seq<AgentEvent>, repair: bool)
    requires Judged(s, acts) && s.run.status == Running
    ensures var a, b := Finish(s, acts, NoCall, repair).run, Finish(CancelRequest(s), acts, NoCall, repair).run;
            b.status == a.status && b.graph == a.graph && b.active == a.active && b.pendingAction == a.pendingAction
  {
    var t := CancelRequest(s);
    UsedAfterRequest(s, acts);
    if report: Report :| Reports(s, acts, report) {
      JudgedReport(s, acts, report, repair);
      assert Reports(t, acts, report);
      JudgedReport(t, acts, report, repair);
      OutcomeIgnoresRequest(Used(s, acts), Used(t, acts), Subject(s.run, report), report.success, repair);
      OutcomeKeepsPending(Used(s, acts), Subject(s.run, report), report.success, repair);
      OutcomeKeepsPending(Used(t, acts), Subject(s.run, report), report.success, repair);
    } else {
      assert forall report :: Reports(t, acts, report) <==> Reports(s, acts, report);
      SilenceFails(s, acts, repair);
      SilenceFails(t, acts, repair);
    }
  }

  /** Judging a report does not touch the pending action. */
  lemma OutcomeKeepsPending(r: Run, id: Option<TaskId>, success: bool, repair: bool)
    ensures TaskOutcome(r, id, success, repair).pendingAction == r.pendingAction
    ensures TaskOutcome(r, id, success, repair).status in {Queued, RunSucceeded, RunFailed}
  {
    if success && AcceptanceGate(r.checks, id) {
      CompletionReadsGraph(r, id);
      AnnounceMovesOn(EmitOnce(r.(graph := WithStatus(r.graph, id, Done), active := None), TaskCompleted, id));
    } else if CanRequeue(WithStatus(r.graph, id, Failed), id, repair) {
      RequeueFrame(r, id, repair);
    } else {
      GiveUpFrame(r, id, repair);
    }
  }

  // ---------------------------------------------------------------- answering and deciding

  /** The run works on its active task, and on no other. */
  ghost predicate WorksOn(s: State, i: nat) {
    && s.worker.Working? && s.run.started && i < |s.run.graph|
    && s.run.active == Some(s.run.graph[i].id)
    && forall j :: 0 <= j < |s.run.graph| ==> (s.run.graph[j].status == InProgress <==> j == i)
  }

  /** A question suspends the task, and its answer lets the next handler go on with the same task on the same graph. */
  lemma AnsweredTaskGoesOn(s: State, acts: seq<AgentEvent>, call: Call, repair: bool, i: nat)
    requires WorksOn(s, i) && UniqueIds(s.run.graph) && Closes(s, acts) && !CancelsAfter(s.worker) && Asked(s, acts)
    ensures var q := AnswerQuestion(Finish(s, acts, call, repair));
            && q.run.status == Queued && q.run.graph == s.run.graph && q.run.active == s.run.active
            && Resume(q).worker == Working(Plain, None, false) && Resume(q).run.status == Running
            && Resume(q).run.graph == s.run.graph && Resume(q).run.active == s.run.active
  {
    QuestionSuspends(s, acts, call, repair);
    var q := AnswerQuestion(Finish(s, acts, call, repair));
    assert q.run.graph == s.run.graph && q.run.status == Queued && q.worker == Idle;
    ResumeTakesUp(q);
    assert IsFirstInProgress(q.run.graph, i);
    assert Resume(q).run.graph == s.run.graph;
  }

  /** An unanswered question or an undecided action expires the run, and neither is then pending. */
  lemma ExpiryEnds(s: State)
    ensures s.run.status == AwaitingQuestion ==>
              ExpireQuestion(s) == s.(run := s.run.(status := RunExpired, log := s.run.log + [Event(RunExpiredEvent, None)]))
    ensures s.run.pendingAction ==>
              ExpireAction(s)
              == s.(run := s.run.(status := RunExpired, pendingAction := false, log := s.run.log + [Event(RunExpiredEvent, None)]))
    ensures s.run.status != AwaitingQuestion ==> ExpireQuestion(s) == s == AnswerQuestion(s)
    ensures !s.run.pendingAction ==> ExpireAction(s) == s == DecideAction(s)
  {
  }

  /** An approved action lets the handler go on with its task; nothing is pending any more. */
  lemma ApprovedActionGoesOn(s: State, acts: seq<AgentEvent>, cancelAfter: bool, repair: bool)
    requires s.run.started && Judged(s, acts)
    ensures var w := Finish(s, acts, PendingCall(true, true), repair);
            var q := ResumeAction(DecideAction(w), Approved(cancelAfter));
            && w.run.status == AwaitingApproval && w.run.pendingAction && DecideAction(w).run.status == Queued
            && q.worker == Working(Approved(cancelAfter), None, false)
            && q.run.status == Running && !q.run.pendingAction
            && q.run.graph == s.run.graph && q.run.active == s.run.active
  {
    AllowedCallEnds(s, acts, true, repair);
    DecisionContinues(DecideAction(Finish(s, acts, PendingCall(true, true), repair)), Approved(cancelAfter));
  }

  /** A rejected one fails the run and its task. */
  lemma RejectedActionFails(s: State, acts: seq<AgentEvent>, repair: bool)
    requires s.run.started && Judged(s, acts)
    ensures var w := Finish(s, acts, PendingCall(true, true), repair);
            var q := RejectAction(ResumeAction(DecideAction(w), Rejected(false))).run;
            q.status == RunFailed && !q.pendingAction && q.active.None? && Retags(s.run.graph, q.graph, s.run.active, Failed)
  {
    AllowedCallEnds(s, acts, true, repair);
    var d := DecideAction(Finish(s, acts, PendingCall(true, true), repair));
    DecisionContinues(d, Rejected(false));
    RejectionEnds(ResumeAction(d, Rejected(false)));
  }

  /** A denied call comes to the same without anybody being asked. */
  lemma DeniedCallFailsRun(s: State, acts: seq<AgentEvent>, requiresApproval: bool, repair: bool)
    requires s.run.started && Judged(s, acts)
    ensures var d := Finish(s, acts, PendingCall(false, requiresApproval), repair);
            var q := RejectAction(ResumeAction(d, Rejected(false))).run;
            && d.run.status == Queued && d.run.pendingAction == s.run.pendingAction
            && q.status == RunFailed && q.pendingAction == s.run.pendingAction && q.active.None?
            && Retags(s.run.graph, q.graph, s.run.active, Failed)
  {
    DeniedCallRequeues(s, acts, requiresApproval, repair);
    var d := Finish(s, acts, PendingCall(false, requiresApproval), repair);
    DecisionContinues(d, Rejected(false));
    RejectionEnds(ResumeAction(d, Rejected(false)));
  }

  /** Cancelling a run that waits for a decision rejects the action and cancels the run and its task. */
  lemma CancelledApprovalEnds(s: State)
    requires s.worker.Idle? && s.run.started && s.run.status == AwaitingApproval && s.run.pendingAction
    ensures var q := RejectAction(ResumeAction(CancelRequest(s), Rejected(true))).run;
            q.status == RunCancelled && !q.pendingAction && q.active.None? && Retags(s.run.graph, q.graph, s.run.active, Cancelled)
  {
    CancelRequestEffect(s);
    DecisionContinues(CancelRequest(s), Rejected(true));
    RejectionEnds(ResumeAction(CancelRequest(s), Rejected(true)));
  }

  // ---------------------------------------------------------------- supervision

  /** A run taken for dead is requeued with its task, one without workers is interrupted, and a cleared chat cancels in bulk. */
  lemma SupervisionEffects(s: State)
    ensures s.run.status in {Running, Cancelling} ==>
              Fallback(s) == s.(run := s.run.(status := Queued, log := s.run.log + [Event(RunQueuedEvent, None)]))
    ensures s.run.status in {Queued, Running} ==>
              Interrupt(s) == s.(run := s.run.(status := RunInterrupted, active := None, log := s.run.log + [Event(RunInterruptedEvent, None)]))
    ensures s.run.status in {Queued, Running, AwaitingQuestion, AwaitingApproval, Cancelling} ==>
              ClearChat(s) == s.(run := s.run.(status := RunCancelled, pendingAction := false))
    ensures s.run.status !in {Running, Cancelling} ==> Fallback(s) == s
    ensures s.run.status !in {Queued, Running} ==> Interrupt(s) == s
    ensures s.run.status !in {Queued, Running, AwaitingQuestion, AwaitingApproval, Cancelling} ==>
              ClearChat(s) == s.(run := s.run.(pendingAction := false))
  {
  }

  /** Once its worker is gone, the run of a cleared chat is at rest unless it was interrupted or had expired. */
  lemma ClearedChatRests(s: State)
    ensures AtRest(ClearChat(s.(worker := Idle))) <==> !s.run.status.RunInterrupted? && !s.run.status.RunExpired?
  {
    match s.run.status
    case Queued => case Running => case AwaitingQuestion => case AwaitingApproval => case Cancelling =>
    case RunSucceeded => case RunFailed => case RunCancelled => case RunExpired => case RunInterrupted =>
  }

  // ---------------------------------------------------------------- coming to rest

  /** The run has ended, nobody works on it and nothing waits for a decision. */
  predicate AtRest(s: State) {
    s.worker.Idle? && s.run.status in {RunSucceeded, RunFailed, RunCancelled} && !s.run.pendingAction
  }

  lemma RestStays(s: State, step: Step, repair: bool)
    requires AtRest(s)
    ensures AtRest(Apply(s, step, repair))
    ensures Apply(s, step, repair).run == s.run.(checks := Apply(s, step, repair).run.checks)
  {
  }

  /** Whatever is tried afterwards, a run at rest keeps its verdict, its tasks and its log. */
  lemma {:induction false} RestIsFinal(s: State, steps: seq<Step>, repair: bool)
    requires AtRest(s)
    ensures AtRest(Execute(s, steps, repair))
    ensures Execute(s, steps, repair).run == s.run.(checks := Execute(s, steps, repair).run.checks)
    decreases |steps|
  {
    if steps != [] {
      var before := steps[..|steps| - 1];
      RestIsFinal(s, before, repair);
      RestStays(Execute(s, before, repair), steps[|steps| - 1], repair);
    }
  }

  /** Only a late worker or a pending action gives a run that has ended another status. */
  lemma RevivedBy(s: State, step: Step, repair: bool)
    requires s.run.status in {RunSucceeded, RunFailed, RunCancelled} && Apply(s, step, repair).run.status != s.run.status
    ensures s.worker.Working? || (s.run.pendingAction && (step.DoDecideAction? || step.DoExpireAction?))
  {
  }
}
