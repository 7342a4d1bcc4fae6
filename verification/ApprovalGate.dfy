/**
 The approval gate of a run: when a run waits for a human, and what the decisions of the
 permission engine make of it.
 */
module ApprovalGate {
  import opened Wrappers
  import opened TaskGraph
  import opened RunModel
  import opened RunSafety
  import opened RunProgress
  import opened RunLaws
  import opened RunRequests
  import Permissions

  /** The step closes a handler whose agent calls a tool that is both allowed and in need of approval. */
  predicate AsksHuman(step: Step) {
    step.DoFinish? && step.call == PendingCall(true, true)
  }

  /** The run waits for a decision on an action. */
  predicate Waits(r: Run) {
    r.pendingAction || r.status == AwaitingApproval
  }

  lemma JudgedDoesNotWait(s: State, acts: seq<AgentEvent>, repair: bool)
    requires Judged(s, acts) && !Waits(s.run)
    ensures !Waits(Finish(s, acts, NoCall, repair).run)
  {
    if report: Report :| Reports(s, acts, report) {
      JudgedReport(s, acts, report, repair);
      OutcomeKeepsPending(Used(s, acts), Subject(s.run, report), report.success, repair);
    } else {
      SilenceFails(s, acts, repair);
    }
  }

  lemma CallDoesNotWait(s: State, acts: seq<AgentEvent>, allowed: bool, requiresApproval: bool, repair: bool)
    requires Judged(s, acts) && !Waits(s.run) && !(allowed && requiresApproval)
    ensures !Waits(Finish(s, acts, PendingCall(allowed, requiresApproval), repair).run)
  {
    if allowed {
      AllowedCallEnds(s, acts, requiresApproval, repair);
    } else {
      DeniedCallRequeues(s, acts, requiresApproval, repair);
    }
  }

  lemma CloseDoesNotWait(s: State, acts: seq<AgentEvent>, call: Call, repair: bool)
    requires !Waits(s.run) && call != PendingCall(true, true)
    ensures !Waits(Finish(s, acts, call, repair).run)
  {
    if !Streaming(s) {
      assert Finish(s, acts, call, repair) == s;
    } else if !Closes(s, acts) {
      RefusedEventsFail(s, acts, call, repair);
    } else if CancelsAfter(s.worker) {
      CancelAfterApproval(s, acts, call, repair);
    } else if Asked(s, acts) {
      QuestionSuspends(s, acts, call, repair);
    } else {
      match call
      case NoCall => JudgedDoesNotWait(s, acts, repair);
      case PendingCall(allowed, requiresApproval) => CallDoesNotWait(s, acts, allowed, requiresApproval, repair);
    }
  }

  lemma ChunkDoesNotWait(s: State, acts: seq<AgentEvent>)
    requires !Waits(s.run)
    ensures !Waits(Chunk(s, acts).run)
  {
    if Streaming(s) {
      if s.run.status == Cancelling {
        CancelledRun(s.run);
      } else if Closes(s, acts) {
        ChunkLogs(s, acts);
      } else {
        RefusedEventsFail(s, acts, NoCall, true);
      }
    }
  }

  lemma BeginDoesNotWait(r: Run, resumption: Resumption, next: Option<Task>, plan: bool)
    requires !Waits(r)
    ensures !Waits(Begin(r, resumption, next, plan).run)
  {
    CancelledRun(r);
    if r.status != Cancelling && next.Some? { BeginTakesUp(r, resumption, next.value, plan); }
  }

  lemma OthersDoNotWait(s: State, step: Step, repair: bool)
    requires !Waits(s.run) && !step.DoFinish? && !step.DoChunk?
    ensures !Waits(Apply(s, step, repair).run)
  {
    match step
    case DoStart => BeginDoesNotWait(s.run, Plain, NextTask(s.run.graph), true);
    case DoResume => BeginDoesNotWait(s.run, Plain, NextOnResume(s.run.graph), false);
    case DoResumeAction(resumption) => BeginDoesNotWait(s.run, resumption, None, false);
    case DoRejectAction => if s.worker.Working? && s.worker.resumption.Rejected? { RejectionEnds(s); }
    case DoRaise => ExceptionFails(s);
    case DoCancelRequest => CancelRequestEffect(s);
    case _ =>
  }

  /** A run begins to wait only in the closing transaction of a call that is allowed and needs approval. */
  lemma StepWaits(s: State, step: Step, repair: bool)
    requires !Waits(s.run) && Waits(Apply(s, step, repair).run)
    ensures AsksHuman(step)
  {
    match step
    case DoFinish(acts, call) => if call != PendingCall(true, true) { CloseDoesNotWait(s, acts, call, repair); }
    case DoChunk(acts) => ChunkDoesNotWait(s, acts);
    case _ => OthersDoNotWait(s, step, repair);
  }

  /** Over every run: a run that waits for a decision has made such a call. */
  lemma {:induction false} WaitingWasAsked(s: State, steps: seq<Step>, repair: bool)
    requires !Waits(s.run) && Waits(Execute(s, steps, repair).run)
    ensures exists k :: 0 <= k < |steps| && AsksHuman(steps[k])
    decreases |steps|
  {
    var n := |steps| - 1;
    assert steps != [];
    var before := Execute(s, steps[..n], repair);
    if Waits(before.run) {
      WaitingWasAsked(s, steps[..n], repair);
      var k :| 0 <= k < n && AsksHuman(steps[..n][k]);
      assert AsksHuman(steps[k]);
    } else {
      StepWaits(before, steps[n], repair);
    }
  }

  // ---------------------------------------------------------------- the engine's decisions

  /** The answers of the engine, fresh or from its cache, never ask and allow at once. */
  lemma AnswersAreExclusive(trace: seq<Permissions.Moment>, i: nat, p: Permissions.Policy)
    requires i < |trace| && trace[i].action.Ask?
    ensures var d := Permissions.Answer(trace, i, p); !(d.allowed && d.requiresApproval)
  {
    var store, m := Permissions.StoreAfter(trace[..i], p), trace[i];
    var q := m.action.q;
    Permissions.AnswerSource(store, m.grants, q, m.now, p);
    Permissions.ApprovalIsNotAllowed(m.grants, q, m.now, p);
    if Permissions.Answer(trace, i, p) != Permissions.Uncached(m.grants, q, m.now, p) {
      Permissions.EntriesAreComputed(trace[..i], p);
      var k := Permissions.KeyOf(q);
      var j :| Permissions.Computed(trace[..i], j, k, store[k], p);
      var past := trace[..i][j];
      Permissions.ApprovalIsNotAllowed(past.grants, past.action.q, past.now, p);
    }
  }

  /** The call was put to the engine at some moment of some history of its cache. */
  ghost predicate PutToEngine(call: Call, p: Permissions.Policy) {
    call.PendingCall? ==>
      exists trace: seq<Permissions.Moment>, i: nat :: Decides(trace, i, call, p)
  }

  ghost predicate Decides(trace: seq<Permissions.Moment>, i: nat, call: Call, p: Permissions.Policy) {
    && i < |trace| && trace[i].action.Ask?
    && var d := Permissions.Answer(trace, i, p); call == PendingCall(d.allowed, d.requiresApproval)
  }

  /**
   With the engine deciding every call, no run ever waits for a human: a call that needs
   approval is not allowed, and what is not allowed is rejected.
   */
  lemma NobodyIsAsked(s: State, steps: seq<Step>, repair: bool, p: Permissions.Policy)
    requires Unstarted(s)
    requires forall k :: 0 <= k < |steps| && steps[k].DoFinish? ==> PutToEngine(steps[k].call, p)
    ensures !Execute(s, steps, repair).run.pendingAction
    ensures Execute(s, steps, repair).run.status != AwaitingApproval
  {
    if Waits(Execute(s, steps, repair).run) {
      WaitingWasAsked(s, steps, repair);
      var k :| 0 <= k < |steps| && AsksHuman(steps[k]);
      var trace: seq<Permissions.Moment>, i: nat :| Decides(trace, i, steps[k].call, p);
      AnswersAreExclusive(trace, i, p);
    }
  }
}
