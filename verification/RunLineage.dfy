/**
 A run that writes, and its retries.

 Such a retry is a new run that keeps the failed run's graph and retry counts, with failed and
 interrupted tasks made pending again; its log is empty and no acceptance checks are compiled for
 it.  A retry of a read-only run, or of one that failed before it had a graph, plans anew: it is a
 lineage of its own.
 */
module RunLineage {
  import opened Wrappers
  import opened TaskGraph
  import opened RunModel
  import opened RunSafety
  import opened RunInvariant
  import opened RunTheorems
  import opened RunSuccess
  import RunProgress

  function Retried(g: Graph): Graph {
    seq(|g|, i requires 0 <= i < |g| => if g[i].status in {Failed, InProgress} then g[i].(status := Pending) else g[i])
  }

  function NewRun(g: Graph, checks: seq<Check>): State {
    State(Run(Queued, false, g, None, map[], [], checks, false), Idle)
  }

  /** One run of the lineage: the checks it was given and what happened to it. */
  datatype Attempt = Attempt(checks: seq<Check>, steps: seq<Step>, repair: bool)

  function Outcome(g: Graph, a: Attempt): Run {
    Execute(NewRun(Retried(g), a.checks), a.steps, a.repair).run
  }

  /** The graph the last of the attempts left behind. */
  function Left(g0: Graph, attempts: seq<Attempt>): Graph {
    if attempts == [] then g0 else Outcome(Left(g0, attempts[..|attempts| - 1]), attempts[|attempts| - 1]).graph
  }

  /** The logs of all attempts, one after the other. */
  function Journal(g0: Graph, attempts: seq<Attempt>): seq<Event> {
    if attempts == [] then []
    else
      var front := attempts[..|attempts| - 1];
      Journal(g0, front) + Outcome(Left(g0, front), attempts[|attempts| - 1]).log
  }

  ghost predicate Planned(g0: Graph) {
    UniqueIds(g0) && forall i :: 0 <= i < |g0| ==> g0[i].status == Pending
  }

  /** What holds of a lineage's graph and journal together. */
  ghost predicate Consistent(g0: Graph, g: Graph, journal: seq<Event>) {
    && SameShape(g0, g) && (forall i :: 0 <= i < |g| ==> g[i].status != Blocked)
    && Chronological(g0, journal) && DoneIffLogged(g0, g, journal)
  }

  lemma RetryIsUnstarted(g0: Graph, g: Graph, checks: seq<Check>)
    requires UniqueIds(g0) && SameShape(g0, g) && forall i :: 0 <= i < |g| ==> g[i].status != Blocked
    ensures Unstarted(NewRun(Retried(g), checks)) && SameShape(g0, Retried(g)) && DoneIds(Retried(g)) == DoneIds(g)
  {
    var h := Retried(g);
    assert forall i :: 0 <= i < |g| ==> (h[i].status == Done <==> g[i].status == Done) && h[i].id == g[i].id;
  }

  /** Appending the log of a retry continues the journal. */
  lemma JournalContinues(g0: Graph, h: Graph, journal: seq<Event>, log: seq<Event>)
    requires SameShape(g0, h) && Chronological(g0, journal) && Chronological(h, log)
    requires forall t :: Finished(g0, journal, t) <==> t in DoneIds(h)
    ensures Chronological(g0, journal + log)
  {
    var all := journal + log;
    ShapeFacts(g0, h);
    forall k | 0 <= k < |all| ensures CompletedInOrder(g0, all, k) {
      if k < |journal| {
        assert CompletedInOrder(g0, journal, k);
        PrefixStays(journal, log, k);
      } else {
        var m := k - |journal|;
        assert CompletedInOrder(h, log, m);
        assert all[..k] == journal + log[..m];
        assert all[k] == log[m];
        assert forall t :: Finished(g0, all[..k], t) <==> Finished(h, log[..m], t);
      }
    }
  }

  lemma FinishedAreDone(g0: Graph, g: Graph, journal: seq<Event>, t: TaskId)
    requires Planned(g0) && Consistent(g0, g, journal)
    ensures Finished(g0, journal, t) <==> t in DoneIds(g)
  {
    if Finished(g0, journal, t) {
      var k :| 0 <= k < |journal| && journal[k] == Event(TaskCompleted, Some(t));
      assert CompletedInOrder(g0, journal, k);
      var i :| 0 <= i < |g0| && g0[i].id == t;
      assert g[i].status == Done && g[i].id == t;
    }
  }

  lemma {:induction false} LineageKeeps(g0: Graph, attempts: seq<Attempt>)
    requires Planned(g0)
    ensures Consistent(g0, Left(g0, attempts), Journal(g0, attempts))
  {
    if attempts != [] {
      var front, last := attempts[..|attempts| - 1], attempts[|attempts| - 1];
      LineageKeeps(g0, front);
      AttemptKeeps(g0, Left(g0, front), Journal(g0, front), last);
    }
  }

  lemma AttemptKeeps(g0: Graph, g: Graph, journal: seq<Event>, a: Attempt)
    requires Planned(g0) && Consistent(g0, g, journal)
    ensures Consistent(g0, Outcome(g, a).graph, journal + Outcome(g, a).log)
  {
    var h, r := Retried(g), Outcome(g, a);
    RetryIsUnstarted(g0, g, a.checks);
    RunKeeps(NewRun(h, a.checks), a.steps, a.repair);
    assert Core(h, r);
    forall t ensures Finished(g0, journal, t) <==> t in DoneIds(h) {
      FinishedAreDone(g0, g, journal, t);
    }
    JournalContinues(g0, h, journal, r.log);
    assert forall t :: Finished(g0, journal + r.log, t) <==> Finished(h, r.log, t);
  }

  /** Over all retries each task completes at most once, behind everything it depends on. */
  lemma LineageOrder(g0: Graph, attempts: seq<Attempt>, k: nat)
    requires Planned(g0) && k < |Journal(g0, attempts)| && Journal(g0, attempts)[k].kind == TaskCompleted
    ensures var journal := Journal(g0, attempts);
            && journal[k].task.Some? && journal[k].task.value in Ids(g0)
            && (forall j :: 0 <= j < |journal| && journal[j] == journal[k] ==> j == k)
            && forall d :: DependsOn(g0, journal[k].task.value, d) ==>
                 exists j :: 0 <= j < k && journal[j] == Event(TaskCompleted, Some(d))
  {
    LineageKeeps(g0, attempts);
    ChronologyOrders(g0, Journal(g0, attempts), k);
  }

  /** A lineage whose last run succeeded had a closed and acyclic graph from the start. */
  lemma {:induction false} LineageNeedsSoundGraph(g0: Graph, attempts: seq<Attempt>)
    requires Planned(g0) && attempts != []
    requires Outcome(Left(g0, attempts[..|attempts| - 1]), attempts[|attempts| - 1]).status == RunSucceeded
    ensures IsComplete(Left(g0, attempts)) && !HasMissingDependency(g0) && !HasCycle(g0)
  {
    var front, last := attempts[..|attempts| - 1], attempts[|attempts| - 1];
    LineageKeeps(g0, front);
    LineageKeeps(g0, attempts);
    RetryIsUnstarted(g0, Left(g0, front), last.checks);
    RunKeeps(NewRun(Retried(Left(g0, front)), last.checks), last.steps, last.repair);
    var g, journal := Left(g0, attempts), Journal(g0, attempts);
    forall t | t in Ids(g0) ensures Finished(g0, journal, t) {
      var i :| 0 <= i < |g0| && g0[i].id == t;
      assert g[i].status == Done && g[i].id == t;
    }
    EverythingFinished(g0, journal);
  }

  /** Every done task was completed in one of the attempts, on that attempt's own evidence. */
  lemma {:induction false} LineageEvidence(g0: Graph, attempts: seq<Attempt>, i: nat) returns (k: nat)
    requires Planned(g0) && i < |Left(g0, attempts)| && Left(g0, attempts)[i].status == Done
    ensures k < |attempts|
    ensures var r, t := Outcome(Left(g0, attempts[..k]), attempts[k]), Left(g0, attempts)[i].id;
            Event(TaskCompleted, Some(t)) in r.log && AcceptanceGate(r.checks, Some(t))
  {
    LineageKeeps(g0, attempts);
    var front, last := attempts[..|attempts| - 1], attempts[|attempts| - 1];
    var g := Left(g0, front);
    LineageKeeps(g0, front);
    RetryIsUnstarted(g0, g, last.checks);
    RunKeeps(NewRun(Retried(g), last.checks), last.steps, last.repair);
    if g[i].status == Done {
      k := LineageEvidence(g0, front, i);
      assert attempts[..k] == front[..k];
    } else {
      k := |attempts| - 1;
      NotDoneYet(Retried(g), i);
      DoneWasAccepted(Retried(g), Outcome(g, last), i);
      assert Finished(Retried(g), Outcome(g, last).log, Retried(g)[i].id);
    }
  }

  /** A retry is given no checks, so one that still has the gated task to do can never succeed. */
  lemma RetryCannotVerify(g: Graph, a: Attempt, i: nat)
    requires UniqueIds(g) && (forall j :: 0 <= j < |g| ==> g[j].status != Blocked) && a.checks == []
    requires i < |g| && g[i].id in CHECK_GATED_TASKS && g[i].status != Done
    ensures Outcome(g, a).status != RunSucceeded
  {
    RetryIsUnstarted(g, g, a.checks);
    UnattainableIsNeverDone(NewRun(Retried(g), a.checks), a.steps, a.repair, i);
  }

  /** Requeues of all the runs of a lineage. */
  function Requeues(g0: Graph, attempts: seq<Attempt>): nat {
    if attempts == [] then 0
    else
      var front, last := attempts[..|attempts| - 1], attempts[|attempts| - 1];
      Requeues(g0, front) + RunProgress.RequeueSteps(NewRun(Retried(Left(g0, front)), last.checks), last.steps, last.repair)
  }

  lemma {:induction false} RetryKeepsRetries(g: Graph)
    ensures RunProgress.RetriesLeft(Retried(g)) == RunProgress.RetriesLeft(g)
  {
    if g != [] {
      assert Retried(g)[..|g| - 1] == Retried(g[..|g| - 1]);
      RetryKeepsRetries(g[..|g| - 1]);
    }
  }

  /** The retry budgets are spent once: however often a run is retried, requeues stay within their sum. */
  lemma {:induction false} LineageRequeues(g0: Graph, attempts: seq<Attempt>)
    requires Planned(g0)
    ensures Requeues(g0, attempts) + RunProgress.RetriesLeft(Left(g0, attempts)) <= RunProgress.RetriesLeft(g0)
  {
    if attempts != [] {
      var front, last := attempts[..|attempts| - 1], attempts[|attempts| - 1];
      var g := Left(g0, front);
      LineageRequeues(g0, front);
      LineageKeeps(g0, front);
      RetryIsUnstarted(g0, g, last.checks);
      RetryKeepsRetries(g);
      RunProgress.RequeuesSpendRetries(NewRun(Retried(g), last.checks), last.steps, last.repair);
    }
  }
}
