/** The task graphs the planner ships, and what every run of them can rely on. */
module PlannedGraphs {
  import opened TaskGraph
  import opened RunModel
  import opened RunSafety
  import opened RunTheorems
  import opened RunProgress

  const BUDGET := 2

  function Planned(id: TaskId, deps: seq<TaskId>): Task {
    Task(id, deps, Pending, 0, BUDGET)
  }

  type Names = n: seq<TaskId> | |n| == 6 witness ["", "", "", "", "", ""]

  ghost predicate Distinct(n: Names) {
    forall i, j :: 0 <= i < j < 6 ==> n[i] != n[j]
  }

  const SPECIFICATION_TASKS: Names :=
    ["scaffold_module", "implement_models", "implement_views", "implement_security", "generate_tests", "validate_and_verify"]

  const STANDARD_TASKS: Names :=
    ["task_01_inspect_ground", "task_02_extend_models", "task_03_config_model",
     "task_04_views_menus", "task_05_security_access", "task_06_verify_install"]

  /** The graph built for a run with a specification. */
  function BuildFromSpecification(n: Names := SPECIFICATION_TASKS): Graph {
    [ Planned(n[0], []), Planned(n[1], [n[0]]), Planned(n[2], [n[1]]), Planned(n[3], [n[1]]),
      Planned(n[4], [n[1], n[2], n[3]]), Planned(n[5], [n[4]]) ]
  }

  /** The static fallback for module requests. */
  function StandardModuleGraph(n: Names := STANDARD_TASKS): Graph {
    [ Planned(n[0], []), Planned(n[1], [n[0]]), Planned(n[2], [n[0]]), Planned(n[3], [n[1], n[2]]),
      Planned(n[4], [n[1], n[2], n[3]]), Planned(n[5], [n[4]]) ]
  }

  ghost predicate Earlier(g: Graph, i: nat, d: TaskId)
    requires i <= |g|
  {
    exists j :: 0 <= j < i && g[j].id == d
  }

  ghost predicate AllPlanned(g: Graph) {
    |g| == 6 && forall i :: 0 <= i < |g| ==> g[i].status == Pending && g[i].retryCount == 0 && g[i].maxRetries == BUDGET
  }

  /** Every dependency is listed before the task that needs it. */
  ghost predicate Layered(g: Graph) {
    forall i :: 0 <= i < |g| ==> forall d <- g[i].deps :: Earlier(g, i, d)
  }

  /** Along a dependency walk the planning order strictly descends. */
  lemma {:induction false} WalkDescends(g: Graph, w: seq<TaskId>) returns (first: nat, last: nat)
    requires UniqueIds(g) && Layered(g) && |w| > 1 && IsWalk(g, w)
    ensures last < first < |g| && g[first].id == w[0] && g[last].id == w[|w| - 1]
    decreases |w|
  {
    assert DependsOn(g, w[0], w[1]);
    var i :| 0 <= i < |g| && g[i].id == w[0] && w[1] in g[i].deps;
    assert Earlier(g, i, w[1]);
    var j :| 0 <= j < i && g[j].id == w[1];
    first, last := i, j;
    if |w| > 2 {
      assert IsWalk(g, w[1..]) by {
        forall m | 0 <= m < |w[1..]| - 1 ensures DependsOn(g, w[1..][m], w[1..][m + 1]) {
          assert DependsOn(g, w[m + 1], w[m + 2]);
        }
      }
      var middle;
      middle, last := WalkDescends(g, w[1..]);
      assert middle == j;
    }
  }

  /** A graph listed in dependency order is closed and acyclic. */
  lemma LayeredIsSound(g: Graph)
    requires UniqueIds(g) && Layered(g)
    ensures !HasMissingDependency(g) && !HasCycle(g)
  {
    forall i, d | 0 <= i < |g| && d in g[i].deps ensures d in Ids(g) {
      assert Earlier(g, i, d);
    }
    forall c ensures !IsCycle(g, c) {
      if IsCycle(g, c) {
        var first, last := WalkDescends(g, c);
        assert false;
      }
    }
  }

  lemma NamesAreDistinct()
    ensures Distinct(SPECIFICATION_TASKS) && Distinct(STANDARD_TASKS)
  {
    var n, m := SPECIFICATION_TASKS, STANDARD_TASKS;
    assert |n[0]| == 15 && |n[1]| == 16 && |n[2]| == 15 && |n[3]| == 18 && |n[4]| == 14 && |n[5]| == 19;
    assert n[0][0] != n[2][0];
    assert m[0][6] == '1' && m[1][6] == '2' && m[2][6] == '3' && m[3][6] == '4' && m[4][6] == '5' && m[5][6] == '6';
  }

  lemma SpecificationIsLayered(n: Names)
    requires Distinct(n)
    ensures UniqueIds(BuildFromSpecification(n)) && Layered(BuildFromSpecification(n)) && AllPlanned(BuildFromSpecification(n))
  {
    var g := BuildFromSpecification(n);
    assert forall i :: 0 <= i < 6 ==> g[i].id == n[i];
    assert Earlier(g, 1, g[0].id) && Earlier(g, 2, g[1].id) && Earlier(g, 3, g[1].id);
    assert Earlier(g, 4, g[1].id) && Earlier(g, 4, g[2].id) && Earlier(g, 4, g[3].id) && Earlier(g, 5, g[4].id);
  }

  lemma StandardIsLayered(n: Names)
    requires Distinct(n)
    ensures UniqueIds(StandardModuleGraph(n)) && Layered(StandardModuleGraph(n)) && AllPlanned(StandardModuleGraph(n))
  {
    var g := StandardModuleGraph(n);
    assert forall i :: 0 <= i < 6 ==> g[i].id == n[i];
    assert Earlier(g, 1, g[0].id) && Earlier(g, 2, g[0].id) && Earlier(g, 3, g[1].id) && Earlier(g, 3, g[2].id);
    assert Earlier(g, 4, g[1].id) && Earlier(g, 4, g[2].id) && Earlier(g, 4, g[3].id) && Earlier(g, 5, g[4].id);
  }

  lemma {:induction false} EqualBudgets(g: Graph, budget: int)
    requires budget >= 0 && forall t <- g :: t.maxRetries == budget
    ensures SumMaxRetries(g) == |g| * budget
  {
    if g != [] { EqualBudgets(g[..|g| - 1], budget); }
  }

  predicate Shipped(g: Graph) {
    g == BuildFromSpecification() || g == StandardModuleGraph()
  }

  lemma ShippedIsPlanned(g: Graph)
    requires Shipped(g)
    ensures UniqueIds(g) && Layered(g) && AllPlanned(g)
  {
    NamesAreDistinct();
    SpecificationIsLayered(SPECIFICATION_TASKS);
    StandardIsLayered(STANDARD_TASKS);
  }

  lemma PlannedIsSound(g: Graph)
    requires UniqueIds(g) && Layered(g) && AllPlanned(g)
    ensures !HasMissingDependency(g) && !HasCycle(g) && CancelledIds(g) == {} && SumMaxRetries(g) == 12
  {
    EqualBudgets(g, BUDGET);
    LayeredIsSound(g);
  }

  /**
   A run of a shipped graph is failed as deadlocked only after a task was given up, and it makes
   at most thirty completions, requeues and recoveries and 240 tool starts.
   */
  lemma ShippedRunsAreBounded(s: State, steps: seq<Step>, repair: bool, k: nat)
    requires Unstarted(s) && Shipped(s.run.graph)
    ensures ProgressSteps(s, steps, repair) <= 30
    ensures var log := Execute(s, steps, repair).run.log;
            && ScopedToolStarts(log) <= 240
            && (k < |log| && log[k].kind == RunDeadlocked ==>
                  exists j :: 0 <= j < k && log[j].kind in {TaskFailed, TaskCancelled})
  {
    ShippedIsPlanned(s.run.graph);
    PlannedIsSound(s.run.graph);
    BoundedWork(s, steps, repair);
    ToolStartsBounded(s, steps, repair);
    var log := Execute(s, steps, repair).run.log;
    if k < |log| && log[k].kind == RunDeadlocked {
      DeadlockHasCause(s, steps, repair, k);
    }
  }
}
