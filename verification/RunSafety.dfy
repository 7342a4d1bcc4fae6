/**
 What every transaction of a run keeps, and what follows for whole runs: completion order,
 acceptance evidence, the tool-iteration cap, and the cause of a deadlock verdict.
 */
module RunSafety {
  import opened Wrappers
  import opened TaskGraph
  import opened RunModel

  // ---------------------------------------------------------------- the invariant

  /** Transactions edit statuses and retry counters; ids, dependencies and budgets never change. */
  ghost predicate SameShape(g0: Graph, g: Graph) {
    && |g| == |g0|
    && forall i :: 0 <= i < |g| ==>
         g[i].id == g0[i].id && g[i].deps == g0[i].deps && g[i].maxRetries == g0[i].maxRetries
  }

  /** Task `t` may still be worked on: it is not done and everything it depends on is. */
  ghost predicate Live(g: Graph, t: TaskId) {
    exists i :: 0 <= i < |g| && g[i].id == t && g[i].status != Done && DepsDone(g, g[i])
  }

  /** Every task in progress is `t`. */
  ghost predicate OnlyInProgress(g: Graph, t: Option<TaskId>) {
    forall i :: 0 <= i < |g| && g[i].status == InProgress ==> t == Some(g[i].id)
  }

  ghost predicate Interrupted(log: seq<Event>) {
    Event(RunInterruptedEvent, None) in log
  }

  ghost predicate FocusOk(r: Run) {
    && (r.active.Some? ==> Live(r.graph, r.active.value))
    && (OnlyInProgress(r.graph, r.active) || (r.active.None? && Interrupted(r.log)))
    && (forall i :: 0 <= i < |r.graph| && r.graph[i].status == InProgress ==> DepsDone(r.graph, r.graph[i]))
    && (forall i, j :: 0 <= i < j < |r.graph| ==>
          !(r.graph[i].status == InProgress && r.graph[j].status == InProgress))
  }

  ghost predicate ReportOk(s: State) {
    s.worker.Working? && s.worker.report.Some? && s.worker.report.value.task.Some? ==>
      Live(s.run.graph, s.worker.report.value.task.value) && OnlyInProgress(s.run.graph, s.worker.report.value.task)
  }

  // Below, `g0` is the graph the run began with and `g` the graph as it stands.

  ghost predicate Finished(g0: Graph, log: seq<Event>, t: TaskId) {
    t in DoneIds(g0) || Event(TaskCompleted, Some(t)) in log
  }

  /** The k-th event, if it completes a task, is the first to do so and follows its dependencies. */
  ghost predicate CompletedInOrder(g0: Graph, log: seq<Event>, k: nat)
    requires k < |log|
  {
    log[k].kind == TaskCompleted ==>
      && log[k].task.Some? && log[k].task.value in Ids(g0)
      && !Finished(g0, log[..k], log[k].task.value)
      && forall d :: DependsOn(g0, log[k].task.value, d) ==> Finished(g0, log[..k], d)
  }

  ghost predicate Chronological(g0: Graph, log: seq<Event>) {
    forall k :: 0 <= k < |log| ==> CompletedInOrder(g0, log, k)
  }

  ghost predicate DoneIffLogged(g0: Graph, g: Graph, log: seq<Event>) {
    forall i :: 0 <= i < |g| ==> (g[i].status == Done <==> Finished(g0, log, g[i].id))
  }

  /** A task done by this run was accepted by it. */
  ghost predicate Evidenced(g0: Graph, g: Graph, checks: seq<Check>) {
    forall i :: 0 <= i < |g| && g[i].status == Done && g[i].id !in DoneIds(g0) ==> AcceptanceGate(checks, Some(g[i].id))
  }

  ghost predicate ToolsCapped(g0: Graph, log: seq<Event>) {
    && (forall k :: 0 <= k < |log| && log[k].kind == ToolStarted && log[k].task.Some? ==> log[k].task.value in Ids(g0))
    && (forall t: TaskId :: Count(log, Event(ToolStarted, Some(t))) <= MAX_TOOL_ITERATIONS)
  }

  ghost predicate Gave(log: seq<Event>, t: TaskId) {
    Event(TaskFailed, Some(t)) in log || Event(TaskCancelled, Some(t)) in log
  }

  function CancelledIds(g: Graph): set<TaskId> {
    set i | 0 <= i < |g| && g[i].status == Cancelled :: g[i].id
  }

  /** A task stands failed or cancelled only if it began so or the log said so. */
  ghost predicate HaltsLogged(g0: Graph, g: Graph, log: seq<Event>) {
    forall i :: 0 <= i < |g| ==>
      g[i].status != Blocked && (g[i].status in {Failed, Cancelled} ==> g[i].id in CancelledIds(g0) || Gave(log, g[i].id))
  }

  ghost predicate SomeoneGaveUp(log: seq<Event>) {
    exists j :: 0 <= j < |log| && log[j].kind in {TaskFailed, TaskCancelled}
  }

  /** What is wrong with the graph itself: a dependency, or a task that began cancelled. */
  ghost predicate Unsound(g0: Graph) {
    HasMissingDependency(g0) || HasCycle(g0) || CancelledIds(g0) != {}
  }

  ghost predicate VerdictsCaused(g0: Graph, log: seq<Event>) {
    forall k :: 0 <= k < |log| && log[k].kind == RunDeadlocked ==> Unsound(g0) || SomeoneGaveUp(log[..k])
  }

  ghost predicate Core(g0: Graph, r: Run) {
    && SameShape(g0, r.graph) && UniqueIds(r.graph)
    && FocusOk(r)
    && Chronological(g0, r.log) && DoneIffLogged(g0, r.graph, r.log)
    && Evidenced(g0, r.graph, r.checks)
    && ToolsCapped(g0, r.log)
    && HaltsLogged(g0, r.graph, r.log) && VerdictsCaused(g0, r.log)
    && (r.status == RunSucceeded ==> IsComplete(r.graph) && r.graph != [])
    && (!r.started ==> r.active.None? && r.status !in {Cancelling, Running} && r.graph == g0 && OnlyInProgress(g0, None))
  }

  ghost predicate Inv(g0: Graph, s: State) {
    Core(g0, s.run) && ReportOk(s) && (!s.run.started ==> s.worker.Idle?)
  }

  // ---------------------------------------------------------------- log extensions

  /** Events that no part of the invariant counts. */
  ghost predicate Quiet(es: seq<Event>) {
    forall k :: 0 <= k < |es| ==> es[k].kind !in {TaskCompleted, ToolStarted, RunDeadlocked}
  }

  lemma {:induction false} CountAppend(a: seq<Event>, b: seq<Event>, e: Event)
    ensures Count(a + b, e) == Count(a, e) + Count(b, e)
  {
    if b == [] {
      assert a + b == a;
    } else {
      assert (a + b)[..|a + b| - 1] == a + b[..|b| - 1];
      CountAppend(a, b[..|b| - 1], e);
    }
  }

  lemma {:induction false} CountAbsent(es: seq<Event>, e: Event)
    requires e !in es
    ensures Count(es, e) == 0
  {
    if es != [] { CountAbsent(es[..|es| - 1], e); }
  }

  lemma PrefixStays(log: seq<Event>, es: seq<Event>, k: nat)
    requires k <= |log|
    ensures (log + es)[..k] == log[..k]
  {
  }

  lemma ChronologyExtends(g0: Graph, log: seq<Event>, es: seq<Event>)
    requires forall k :: 0 <= k < |es| ==> es[k].kind != TaskCompleted
    ensures Chronological(g0, log) ==> Chronological(g0, log + es)
    ensures forall t: TaskId :: Event(TaskCompleted, Some(t)) in log + es <==> Event(TaskCompleted, Some(t)) in log
  {
    if Chronological(g0, log) {
      forall k | 0 <= k < |log + es| ensures CompletedInOrder(g0, log + es, k) {
        if k < |log| {
          assert CompletedInOrder(g0, log, k);
          PrefixStays(log, es, k);
        }
      }
    }
  }

  lemma ToolsExtend(g0: Graph, log: seq<Event>, es: seq<Event>)
    requires forall k :: 0 <= k < |es| ==> es[k].kind != ToolStarted
    ensures ToolsCapped(g0, log) ==> ToolsCapped(g0, log + es)
  {
    forall t: TaskId ensures Count(log + es, Event(ToolStarted, Some(t))) == Count(log, Event(ToolStarted, Some(t))) {
      CountAppend(log, es, Event(ToolStarted, Some(t)));
      CountAbsent(es, Event(ToolStarted, Some(t)));
    }
    assert forall k :: 0 <= k < |log + es| && (log + es)[k].kind == ToolStarted ==> k < |log|;
  }

  lemma VerdictsExtend(g0: Graph, log: seq<Event>, es: seq<Event>)
    requires forall k :: 0 <= k < |es| && es[k].kind == RunDeadlocked ==>
               Unsound(g0) || SomeoneGaveUp(log)
    ensures VerdictsCaused(g0, log) ==> VerdictsCaused(g0, log + es)
  {
    if VerdictsCaused(g0, log) {
      forall k | 0 <= k < |log + es| && (log + es)[k].kind == RunDeadlocked
        ensures Unsound(g0) || SomeoneGaveUp((log + es)[..k])
      {
        if k < |log| {
          PrefixStays(log, es, k);
        } else {
          assert es[k - |log|].kind == RunDeadlocked;
          if SomeoneGaveUp(log) {
            var j :| 0 <= j < |log| && log[j].kind in {TaskFailed, TaskCancelled};
            assert (log + es)[..k][j] == log[j];
          }
        }
      }
    }
  }

  lemma LogExtends(g0: Graph, log: seq<Event>, es: seq<Event>)
    requires Quiet(es)
    ensures Chronological(g0, log) ==> Chronological(g0, log + es)
    ensures ToolsCapped(g0, log) ==> ToolsCapped(g0, log + es)
    ensures VerdictsCaused(g0, log) ==> VerdictsCaused(g0, log + es)
    ensures forall t: TaskId :: Event(TaskCompleted, Some(t)) in log + es <==> Event(TaskCompleted, Some(t)) in log
  {
    ChronologyExtends(g0, log, es);
    ToolsExtend(g0, log, es);
    VerdictsExtend(g0, log, es);
  }

  // ---------------------------------------------------------------- shape and status edits

  /** Editing the status of one task. */
  ghost predicate Retasked(g: Graph, h: Graph, t: TaskId, status: Status) {
    && SameShape(g, h)
    && forall i :: 0 <= i < |g| ==> h[i].status == (if g[i].id == t then status else g[i].status)
  }

  lemma ShapeFacts(g: Graph, h: Graph)
    requires SameShape(g, h)
    ensures Ids(h) == Ids(g)
    ensures HasMissingDependency(g) ==> HasMissingDependency(h)
    ensures HasCycle(g) ==> HasCycle(h)
    ensures forall a, b :: DependsOn(g, a, b) <==> DependsOn(h, a, b)
    ensures UniqueIds(g) ==> UniqueIds(h)
  {
    assert Ids(h) == Ids(g) by {
      forall x ensures x in Ids(g) <==> x in Ids(h) {
        if x in Ids(g) { var i :| 0 <= i < |g| && g[i].id == x; assert h[i].id == x; }
        if x in Ids(h) { var i :| 0 <= i < |h| && h[i].id == x; assert g[i].id == x; }
      }
    }
    forall a, b ensures DependsOn(g, a, b) <==> DependsOn(h, a, b) {
      if DependsOn(g, a, b) { var i :| 0 <= i < |g| && g[i].id == a && b in g[i].deps; assert h[i].id == a && b in h[i].deps; }
      if DependsOn(h, a, b) { var i :| 0 <= i < |h| && h[i].id == a && b in h[i].deps; assert g[i].id == a && b in g[i].deps; }
    }
    if HasMissingDependency(g) {
      var i, d :| 0 <= i < |g| && d in g[i].deps && d !in Ids(g);
      assert d in h[i].deps;
    }
    if HasCycle(g) {
      var c :| IsCycle(g, c);
      assert IsCycle(h, c);
    }
  }

  lemma RetaskKeepsDone(g: Graph, h: Graph, t: TaskId, status: Status)
    requires UniqueIds(g) && Live(g, t) && status != Done && Retasked(g, h, t, status)
    ensures DoneIds(h) == DoneIds(g)
    ensures forall x :: Live(g, x) ==> Live(h, x)
  {
    assert DoneIds(h) == DoneIds(g) by {
      forall x ensures x in DoneIds(g) <==> x in DoneIds(h) {
        if x in DoneIds(g) { var i :| 0 <= i < |g| && g[i].status == Done && g[i].id == x; assert h[i].status == Done; }
        if x in DoneIds(h) { var i :| 0 <= i < |h| && h[i].status == Done && h[i].id == x; assert g[i].status == Done; }
      }
    }
    forall x | Live(g, x) ensures Live(h, x) {
      var i :| 0 <= i < |g| && g[i].id == x && g[i].status != Done && DepsDone(g, g[i]);
      assert h[i].id == x && h[i].status != Done && DepsDone(h, h[i]);
    }
  }

  // ---------------------------------------------------------------- the four kinds of change

  /** A change that leaves the graph alone and appends quiet events. */
  lemma QuietStep(g0: Graph, r: Run, q: Run, es: seq<Event>)
    requires Core(g0, r)
    requires q.graph == r.graph && q.checks == r.checks && q.log == r.log + es && Quiet(es)
    requires q.active == r.active || (q.active.None? && Interrupted(q.log))
    requires q.status == RunSucceeded ==> r.status == RunSucceeded
    requires q.started || (!r.started && q.status !in {Cancelling, Running})
    ensures Core(g0, q)
  {
    LogExtends(g0, r.log, es);
    assert forall e :: e in r.log ==> e in q.log;
  }

  lemma RetaskKeepsHalts(g0: Graph, g: Graph, h: Graph, t: TaskId, status: Status, log: seq<Event>, es: seq<Event>)
    requires HaltsLogged(g0, g, log) && Retasked(g, h, t, status)
    requires status != Blocked && (status in {Failed, Cancelled} ==> Gave(log + es, t))
    ensures HaltsLogged(g0, h, log + es)
  {
    assert forall e :: e in log ==> e in log + es;
  }

  lemma RetaskKeepsFocus(g: Graph, h: Graph, t: TaskId, status: Status)
    requires Retasked(g, h, t, status) && (OnlyInProgress(g, Some(t)) || OnlyInProgress(g, None))
    ensures OnlyInProgress(h, Some(t)) && (status != InProgress ==> OnlyInProgress(h, None))
  {
  }

  lemma RetaskMovesFocus(r: Run, q: Run, t: TaskId, status: Status)
    requires FocusOk(r) && Live(r.graph, t) && Retasked(r.graph, q.graph, t, status) && status != Done
    requires OnlyInProgress(r.graph, Some(t)) || OnlyInProgress(r.graph, None)
    requires q.active == Some(t) || (q.active.None? && status != InProgress)
    requires UniqueIds(r.graph) && UniqueIds(q.graph) && DoneIds(q.graph) == DoneIds(r.graph)
    requires forall x :: Live(r.graph, x) ==> Live(q.graph, x)
    ensures FocusOk(q)
  {
    RetaskKeepsFocus(r.graph, q.graph, t, status);
  }

  lemma RetaskKeepsLogged(g0: Graph, g: Graph, h: Graph, t: TaskId, status: Status, log: seq<Event>, es: seq<Event>)
    requires DoneIffLogged(g0, g, log) && Retasked(g, h, t, status) && status != Done && UniqueIds(g) && Live(g, t)
    requires forall x: TaskId :: Event(TaskCompleted, Some(x)) in log + es <==> Event(TaskCompleted, Some(x)) in log
    ensures DoneIffLogged(g0, h, log + es)
  {
    assert forall i :: 0 <= i < |g| && g[i].id == t ==> g[i].status != Done;
  }

  /** A change that gives one live task another undone status. */
  lemma RetaskStep(g0: Graph, r: Run, q: Run, t: TaskId, status: Status, es: seq<Event>)
    requires Core(g0, r) && Live(r.graph, t) && Retasked(r.graph, q.graph, t, status)
    requires status !in {Done, Blocked} && (status in {Failed, Cancelled} ==> Gave(q.log, t))
    requires OnlyInProgress(r.graph, Some(t)) || OnlyInProgress(r.graph, None)
    requires q.checks == r.checks && q.log == r.log + es && Quiet(es)
    requires q.active == Some(t) || (q.active.None? && status != InProgress)
    requires q.status != RunSucceeded && q.started
    ensures Core(g0, q)
    ensures forall x :: Live(r.graph, x) ==> Live(q.graph, x)
  {
    var g, h := r.graph, q.graph;
    ShapeFacts(g, h);
    RetaskKeepsDone(g, h, t, status);
    LogExtends(g0, r.log, es);
    RetaskKeepsHalts(g0, g, h, t, status, r.log, es);
    RetaskMovesFocus(r, q, t, status);
    RetaskKeepsLogged(g0, g, h, t, status, r.log, es);
    RetaskKeepsEvidence(g0, g, h, t, status, r.checks);
  }

  lemma RetaskKeepsEvidence(g0: Graph, g: Graph, h: Graph, t: TaskId, status: Status, checks: seq<Check>)
    requires Evidenced(g0, g, checks) && Retasked(g, h, t, status) && status != Done
    ensures Evidenced(g0, h, checks)
  {
  }

  /** Announcing a live task for the first time keeps the log chronological. */
  lemma CompletionIsChronological(g0: Graph, g: Graph, log: seq<Event>, t: TaskId)
    requires SameShape(g0, g) && UniqueIds(g) && Live(g, t) && Chronological(g0, log) && DoneIffLogged(g0, g, log)
    ensures !Finished(g0, log, t)
    ensures Chronological(g0, log + [Event(TaskCompleted, Some(t))])
  {
    var e := Event(TaskCompleted, Some(t));
    var n, after := |log|, log + [e];
    ShapeFacts(g0, g);
    forall k | 0 <= k < |after| ensures CompletedInOrder(g0, after, k) {
      PrefixStays(log, [e], if k < n then k else n);
      if k < n {
        assert CompletedInOrder(g0, log, k);
      } else {
        forall d | DependsOn(g0, t, d) ensures Finished(g0, after[..k], d) {
          assert DependsOn(g, t, d);
          var i :| 0 <= i < |g| && g[i].id == t && d in g[i].deps;
          assert d in DoneIds(g);
          var j :| 0 <= j < |g| && g[j].status == Done && g[j].id == d;
          assert Finished(g0, log, g[j].id);
        }
      }
    }
  }

  lemma CompletionKeepsHalts(g0: Graph, g: Graph, h: Graph, t: TaskId, log: seq<Event>)
    requires HaltsLogged(g0, g, log) && Retasked(g, h, t, Done)
    ensures HaltsLogged(g0, h, log + [Event(TaskCompleted, Some(t))])
  {
    assert forall e :: e in log ==> e in log + [Event(TaskCompleted, Some(t))];
  }

  lemma CompletionKeepsDone(g0: Graph, g: Graph, h: Graph, t: TaskId, log: seq<Event>)
    requires DoneIffLogged(g0, g, log) && Retasked(g, h, t, Done)
    ensures DoneIffLogged(g0, h, log + [Event(TaskCompleted, Some(t))])
  {
    var after := log + [Event(TaskCompleted, Some(t))];
    assert Event(TaskCompleted, Some(t)) in after;
    assert forall x: TaskId :: x != t ==> (Finished(g0, after, x) <==> Finished(g0, log, x));
  }

  lemma CompletionKeepsFocus(r: Run, q: Run, t: TaskId)
    requires FocusOk(r) && Retasked(r.graph, q.graph, t, Done) && OnlyInProgress(r.graph, Some(t)) && q.active.None?
    ensures OnlyInProgress(q.graph, None) && FocusOk(q)
  {
  }

  lemma CompletionKeepsEvidence(g0: Graph, g: Graph, h: Graph, t: TaskId, checks: seq<Check>)
    requires Evidenced(g0, g, checks) && Retasked(g, h, t, Done) && AcceptanceGate(checks, Some(t))
    ensures Evidenced(g0, h, checks)
  {
  }

  /** A live task with its evidence in place becomes done and is announced. */
  lemma CompleteStep(g0: Graph, r: Run, q: Run, t: TaskId)
    requires Core(g0, r) && Live(r.graph, t) && Retasked(r.graph, q.graph, t, Done)
    requires OnlyInProgress(r.graph, Some(t)) && AcceptanceGate(r.checks, Some(t))
    requires q.checks == r.checks && q.log == r.log + [Event(TaskCompleted, Some(t))]
    requires q.active.None? && q.status != RunSucceeded && q.started
    ensures Core(g0, q) && OnlyInProgress(q.graph, None)
    ensures !Finished(g0, r.log, t)
  {
    var es := [Event(TaskCompleted, Some(t))];
    ShapeFacts(r.graph, q.graph);
    CompletionIsChronological(g0, r.graph, r.log, t);
    ToolsExtend(g0, r.log, es);
    VerdictsExtend(g0, r.log, es);
    CompletionKeepsHalts(g0, r.graph, q.graph, t, r.log);
    CompletionKeepsDone(g0, r.graph, q.graph, t, r.log);
    CompletionKeepsFocus(r, q, t);
    CompletionKeepsEvidence(g0, r.graph, q.graph, t, r.checks);
  }

  /** A tool start below the cap, scoped to the active task. */
  lemma ToolStep(g0: Graph, r: Run)
    requires Core(g0, r)
    requires r.active.Some? ==> Count(r.log, Event(ToolStarted, r.active)) < MAX_TOOL_ITERATIONS
    ensures Core(g0, Emit(r, ToolStarted, r.active))
  {
    var es := [Event(ToolStarted, r.active)];
    ShapeFacts(g0, r.graph);
    ChronologyExtends(g0, r.log, es);
    VerdictsExtend(g0, r.log, es);
    forall t: TaskId ensures Count(r.log + es, Event(ToolStarted, Some(t))) <= MAX_TOOL_ITERATIONS {
      assert (r.log + es)[..|r.log + es| - 1] == r.log;
    }
    assert forall x :: x in r.log ==> x in r.log + es;
  }

  lemma HaltedWasGiven(g0: Graph, g: Graph, log: seq<Event>)
    requires HaltsLogged(g0, g, log) && OnlyInProgress(g, None) && HasHaltedTask(g)
    ensures CancelledIds(g0) != {} || SomeoneGaveUp(log)
  {
    var i :| 0 <= i < |g| && g[i].status != Pending && g[i].status != Done;
    assert g[i].id in CancelledIds(g0) || Gave(log, g[i].id);
  }

  lemma StuckIsCaused(g0: Graph, r: Run)
    requires Core(g0, r) && OnlyInProgress(r.graph, None)
    requires NextTask(r.graph).None? && !IsComplete(r.graph)
    ensures Unsound(g0) || SomeoneGaveUp(r.log)
  {
    StuckHasCause(r.graph);
    ShapeFacts(r.graph, g0);
    if HasHaltedTask(r.graph) { HaltedWasGiven(g0, r.graph, r.log); }
  }

  /** The deadlock verdict is only reached with a cause on record. */
  lemma DeadlockStep(g0: Graph, r: Run)
    requires Core(g0, r) && OnlyInProgress(r.graph, None) && r.started
    requires NextTask(r.graph).None? && !IsComplete(r.graph)
    ensures Core(g0, Emit(r.(status := RunFailed), RunDeadlocked, None))
  {
    var es := [Event(RunDeadlocked, None)];
    StuckIsCaused(g0, r);
    ChronologyExtends(g0, r.log, es);
    ToolsExtend(g0, r.log, es);
    VerdictsExtend(g0, r.log, es);
    MembershipExtends(g0, r, es);
  }

  /** What the invariant reads off the log by membership survives any extension. */
  lemma MembershipExtends(g0: Graph, r: Run, es: seq<Event>)
    requires FocusOk(r) && HaltsLogged(g0, r.graph, r.log)
    ensures FocusOk(r.(log := r.log + es)) && HaltsLogged(g0, r.graph, r.log + es)
  {
    assert forall x :: x in r.log ==> x in r.log + es;
  }

  /** What `EmitOnce` appends. */
  function Once(log: seq<Event>, kind: Kind, task: Option<TaskId>): seq<Event> {
    if Event(kind, task) in log then [] else [Event(kind, task)]
  }

  lemma EmitOnceLog(r: Run, kind: Kind, task: Option<TaskId>)
    ensures EmitOnce(r, kind, task).log == r.log + Once(r.log, kind, task)
    ensures EmitOnce(r, kind, task) == r.(log := r.log + Once(r.log, kind, task))
    ensures Event(kind, task) in EmitOnce(r, kind, task).log
  {
    assert r.log + [] == r.log;
  }
}
