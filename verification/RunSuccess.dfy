/**
 When a run can succeed at all.

 Packaging is the only writer of a check's status, and it writes two forms of checks only.  A
 required check of any other form is therefore settled before the run begins, and with the shape
 of the graph that decides whether some sequence of transactions succeeds.
 */
module RunSuccess {
  import opened Wrappers
  import opened TaskGraph
  import opened RunModel
  import opened RunSafety
  import opened RunInvariant
  import opened RunTheorems
  import opened RunProgress

  // ---------------------------------------------------------------- what packaging can settle

  predicate Rewritable(c: Check) {
    c.kind == "artifact_digest" || c.task == Some("validate_and_verify")
  }

  /** Every required check of the task is passed or of a form packaging writes. */
  ghost predicate Attainable(checks: seq<Check>, t: TaskId) {
    && (forall i :: 0 <= i < |checks| && Owes(checks[i], Some(t)) ==> checks[i].status == CheckPassed || Rewritable(checks[i]))
    && (t in CHECK_GATED_TASKS ==> exists i :: 0 <= i < |checks| && Owes(checks[i], Some(t)))
  }

  function Packaged(checks: seq<Check>, reports: seq<PackageReport>): seq<Check> {
    if reports == [] then checks
    else ReevaluateAll(Packaged(checks, reports[..|reports| - 1]), reports[|reports| - 1])
  }

  const ALL_GOOD := PackageReport(true, true, 1)

  /** What one packaging run does to each check: a digest or a verification check passes on its own evidence, and only the latter can fail. */
  lemma PackagingVerdict(checks: seq<Check>, report: PackageReport, i: nat)
    requires i < |checks|
    ensures var c, d := checks[i], ReevaluateAll(checks, report)[i];
            var digest := c.kind == "artifact_digest" && report.staticPassed;
            var tested := report.runtimeOk && (c.kind == "business_scenario" ==> report.testCount > 0);
            && |ReevaluateAll(checks, report)| == |checks| && d == c.(status := d.status)
            && (d.status == CheckPassed <==>
                  c.status == CheckPassed || digest || (c.task == Some("validate_and_verify") && tested))
            && (d.status != CheckPassed && d.status != c.status ==>
                  d.status == CheckFailed && c.task == Some("validate_and_verify") && !tested)
            && (c.task == Some("validate_and_verify") ==> d.status == CheckPassed || d.status == CheckFailed)
  {
  }

  lemma ReevaluationKeepsAttainable(checks: seq<Check>, report: PackageReport, t: TaskId)
    ensures Attainable(ReevaluateAll(checks, report), t) <==> Attainable(checks, t)
  {
    var after := ReevaluateAll(checks, report);
    assert forall i :: 0 <= i < |checks| ==> (Owes(after[i], Some(t)) <==> Owes(checks[i], Some(t)));
    if Attainable(after, t) {
      assert forall i :: 0 <= i < |checks| && Owes(checks[i], Some(t)) ==> Owes(after[i], Some(t));
    }
    if Attainable(checks, t) && t in CHECK_GATED_TASKS {
      var i :| 0 <= i < |checks| && Owes(checks[i], Some(t));
      assert Owes(after[i], Some(t));
    }
  }

  lemma GoodPackagingPasses(checks: seq<Check>, t: TaskId)
    requires Attainable(checks, t)
    ensures AcceptanceGate(ReevaluateAll(checks, ALL_GOOD), Some(t))
  {
    var after := ReevaluateAll(checks, ALL_GOOD);
    assert forall i :: 0 <= i < |checks| ==> (Owes(after[i], Some(t)) <==> Owes(checks[i], Some(t)));
    if t in CHECK_GATED_TASKS {
      var i :| 0 <= i < |checks| && Owes(checks[i], Some(t));
      assert Owes(after[i], Some(t));
    }
  }

  lemma OpenGateIsAttainable(checks: seq<Check>, t: TaskId)
    ensures AcceptanceGate(checks, Some(t)) ==> Attainable(checks, t)
  {
  }

  lemma {:induction false} PackagingKeepsAttainable(checks: seq<Check>, reports: seq<PackageReport>, t: TaskId)
    ensures Attainable(Packaged(checks, reports), t) <==> Attainable(checks, t)
  {
    if reports != [] {
      PackagingKeepsAttainable(checks, reports[..|reports| - 1], t);
      ReevaluationKeepsAttainable(Packaged(checks, reports[..|reports| - 1]), reports[|reports| - 1], t);
    }
  }

  /** Some series of packaging reports opens a task's gate if and only if it is attainable. */
  lemma GateOpensIffAttainable(checks: seq<Check>, t: TaskId)
    ensures (exists reports :: AcceptanceGate(Packaged(checks, reports), Some(t))) <==> Attainable(checks, t)
  {
    if exists reports :: AcceptanceGate(Packaged(checks, reports), Some(t)) {
      var reports :| AcceptanceGate(Packaged(checks, reports), Some(t));
      PackagingKeepsAttainable(checks, reports, t);
      OpenGateIsAttainable(Packaged(checks, reports), t);
    }
    if Attainable(checks, t) {
      GoodPackagingPasses(checks, t);
      var none: seq<PackageReport> := [];
      assert [ALL_GOOD][..0] == none;
      assert Packaged(checks, none) == checks;
      assert AcceptanceGate(Packaged(checks, [ALL_GOOD]), Some(t));
    }
  }

  // ---------------------------------------------------------------- no other step writes checks

  lemma {:induction false} DrainKeepsChecks(s: State, acts: seq<AgentEvent>)
    requires s.worker.Working? && Drain(s, acts).Some?
    ensures Drain(s, acts).value.run.checks == s.run.checks
    decreases |acts|
  {
    if acts != [] { DrainKeepsChecks(DrainOne(s, acts[0]).value, acts[1..]); }
  }

  lemma OutcomeKeepsChecks(r: Run, id: Option<TaskId>, success: bool, repair: bool)
    ensures TaskOutcome(r, id, success, repair).checks == r.checks
  {
  }

  lemma PauseKeepsChecks(r: Run, w: Worker, call: Call)
    requires w.Working?
    ensures Pause(r, w, call).checks == r.checks
  {
  }

  lemma ConcludeKeepsChecks(r: Run, w: Worker, call: Call, repair: bool)
    requires w.Working?
    ensures Conclude(r, w, call, repair).checks == r.checks
  {
    if Judging(w, call) {
      OutcomeKeepsChecks(r, JudgedTask(r, w), w.report.value.success, repair);
    } else {
      PauseKeepsChecks(r, w, call);
    }
  }

  lemma RaiseKeepsChecks(s: State)
    ensures Raise(s).run.checks == s.run.checks
  {
  }

  lemma BeginKeepsChecks(r: Run, resumption: Resumption, next: Option<Task>, plan: bool)
    ensures Begin(r, resumption, next, plan).run.checks == r.checks
  {
  }

  lemma RoutesKeepChecks(s: State, step: Step, repair: bool)
    requires IsRoute(step)
    ensures Apply(s, step, repair).run.checks == s.run.checks
  {
    CancelKeepsChecks(s);
  }

  lemma CancelKeepsChecks(s: State)
    ensures CancelRequest(s).run.checks == s.run.checks
  {
  }

  /** Packaging is the only transaction that writes checks. */
  lemma ChecksFrame(s: State, step: Step, repair: bool)
    ensures Apply(s, step, repair).run.checks
         == if step.DoRecordPackaging? then ReevaluateAll(s.run.checks, step.report) else s.run.checks
  {
    match step
    case DoStart => BeginKeepsChecks(s.run, Plain, NextTask(s.run.graph), true);
    case DoResume => BeginKeepsChecks(s.run, Plain, NextOnResume(s.run.graph), false);
    case DoResumeAction(resumption) => BeginKeepsChecks(s.run, resumption, None, false);
    case DoChunk(acts) =>
      RaiseKeepsChecks(s);
      if Streaming(s) && Drain(s, acts).Some? { DrainKeepsChecks(s, acts); }
    case DoFinish(acts, call) =>
      RaiseKeepsChecks(s);
      if Streaming(s) && Drain(s, acts).Some? {
        DrainKeepsChecks(s, acts);
        var d := Drain(s, acts).value;
        ConcludeKeepsChecks(Emit(d.run, Usage, None), d.worker, call, repair);
      }
    case DoRaise => RaiseKeepsChecks(s);
    case DoRejectAction =>
    case DoWatchdog =>
    case DoRecordPackaging(report) =>
    case _ => RoutesKeepChecks(s, step, repair);
  }

  lemma {:induction false} RunKeepsAttainable(s: State, steps: seq<Step>, repair: bool, t: TaskId)
    ensures Attainable(Execute(s, steps, repair).run.checks, t) <==> Attainable(s.run.checks, t)
    decreases |steps|
  {
    if steps != [] {
      var front, last := steps[..|steps| - 1], steps[|steps| - 1];
      RunKeepsAttainable(s, front, repair, t);
      ChecksFrame(Execute(s, front, repair), last, repair);
      if last.DoRecordPackaging? { ReevaluationKeepsAttainable(Execute(s, front, repair).run.checks, last.report, t); }
    }
  }

  lemma NotDoneYet(g: Graph, i: nat)
    requires UniqueIds(g) && i < |g|
    ensures g[i].id in DoneIds(g) <==> g[i].status == Done
  {
  }

  lemma DoneWasAccepted(g0: Graph, r: Run, i: nat)
    requires Core(g0, r) && i < |g0| && g0[i].id !in DoneIds(g0)
    ensures i < |r.graph| && r.graph[i].id == g0[i].id
    ensures r.graph[i].status == Done ==> AcceptanceGate(r.checks, Some(g0[i].id))
    ensures r.status == RunSucceeded ==> r.graph[i].status == Done
  {
  }

  /**
   A task that owes a required check packaging cannot write, or a gated task without any check,
   is never completed, and its run never succeeds.
   */
  lemma UnattainableIsNeverDone(s: State, steps: seq<Step>, repair: bool, i: nat)
    requires Unstarted(s) && i < |s.run.graph| && s.run.graph[i].status != Done
    requires !Attainable(s.run.checks, s.run.graph[i].id)
    ensures var r := Execute(s, steps, repair).run;
            i < |r.graph| && r.graph[i].status != Done && r.status != RunSucceeded
  {
    var g0 := s.run.graph;
    RunKeeps(s, steps, repair);
    NotDoneYet(g0, i);
    DoneWasAccepted(g0, Execute(s, steps, repair).run, i);
    RunKeepsAttainable(s, steps, repair, g0[i].id);
    OpenGateIsAttainable(Execute(s, steps, repair).run.checks, g0[i].id);
  }
}
