/**
 The supervisor's task graph and the planner that reads it.

 A graph is a list of tasks in planning order; the planner starts the first pending task
 whose dependencies are all done.  The theorems say when the planner is stuck.
 */
module TaskGraph {
  import opened Wrappers

  type TaskId = string

  datatype Status = Pending | InProgress | Blocked | Done | Failed | Cancelled

  datatype Task = Task(id: TaskId, deps: seq<TaskId>, status: Status, retryCount: int, maxRetries: int)

  type Graph = seq<Task>

  ghost predicate UniqueIds(g: Graph) {
    forall i, j :: 0 <= i < j < |g| ==> g[i].id != g[j].id
  }

  function Ids(g: Graph): set<TaskId> {
    set i | 0 <= i < |g| :: g[i].id
  }

  function DoneIds(g: Graph): set<TaskId> {
    set i | 0 <= i < |g| && g[i].status == Done :: g[i].id
  }

  predicate DepsDone(g: Graph, t: Task) {
    forall d :: d in t.deps ==> d in DoneIds(g)
  }

  predicate Ready(g: Graph, t: Task) {
    t.status == Pending && DepsDone(g, t)
  }

  /** The first ready task at or after position `from`. */
  function FirstReady(g: Graph, from: nat): (r: Option<Task>)
    requires from <= |g|
    ensures r.None? ==> forall i :: from <= i < |g| ==> !Ready(g, g[i])
    ensures r.Some? ==> exists i :: from <= i < |g| && g[i] == r.value && Ready(g, g[i])
                                    && forall j :: from <= j < i ==> !Ready(g, g[j])
    decreases |g| - from
  {
    if from == |g| then None
    else if Ready(g, g[from]) then Some(g[from])
    else FirstReady(g, from + 1)
  }

  function NextTask(g: Graph): Option<Task> {
    FirstReady(g, 0)
  }

  predicate IsComplete(g: Graph) {
    forall i :: 0 <= i < |g| ==> g[i].status == Done
  }

  // ---------------------------------------------------------------- dependency structure

  ghost predicate DependsOn(g: Graph, a: TaskId, b: TaskId) {
    exists i :: 0 <= i < |g| && g[i].id == a && b in g[i].deps
  }

  ghost predicate HasMissingDependency(g: Graph) {
    exists i, d :: 0 <= i < |g| && d in g[i].deps && d !in Ids(g)
  }

  /** A dependency walk: every id depends on the next one. */
  ghost predicate IsWalk(g: Graph, w: seq<TaskId>) {
    forall k :: 0 <= k < |w| - 1 ==> DependsOn(g, w[k], w[k + 1])
  }

  ghost predicate IsCycle(g: Graph, c: seq<TaskId>) {
    |c| > 1 && c[0] == c[|c| - 1] && IsWalk(g, c)
  }

  ghost predicate HasCycle(g: Graph) {
    exists c :: IsCycle(g, c)
  }

  /** An undone task waits for something that is not in the graph. */
  ghost predicate OpenMissing(g: Graph) {
    exists i, d :: 0 <= i < |g| && g[i].status != Done && d in g[i].deps && d !in Ids(g)
  }

  /** A cycle none of whose tasks is done. */
  ghost predicate OpenCycle(g: Graph) {
    exists c :: IsCycle(g, c) && forall x <- c :: x !in DoneIds(g)
  }

  /** A task that is neither waiting nor done: the planner never picks it up again. */
  ghost predicate HasHaltedTask(g: Graph) {
    exists i :: 0 <= i < |g| && g[i].status != Pending && g[i].status != Done
  }

  /** From any undone id of a stuck graph one can walk along undone dependencies forever. */
  lemma UndoneWalk(g: Graph, start: TaskId, n: nat) returns (w: seq<TaskId>)
    requires UniqueIds(g) && NextTask(g).None?
    requires !OpenMissing(g) && !HasHaltedTask(g)
    requires start in Ids(g) - DoneIds(g)
    ensures |w| == n + 1 && w[0] == start && IsWalk(g, w)
    ensures forall k :: 0 <= k < |w| ==> w[k] in Ids(g) - DoneIds(g)
    decreases n
  {
    if n == 0 {
      w := [start];
    } else {
      var i :| 0 <= i < |g| && g[i].id == start;
      assert g[i].status == Pending && !Ready(g, g[i]);
      var d :| d in g[i].deps && d !in DoneIds(g);
      assert d in Ids(g);
      var rest := UndoneWalk(g, d, n - 1);
      w := [start] + rest;
      assert DependsOn(g, start, d);
      forall k | 0 <= k < |w| - 1 ensures DependsOn(g, w[k], w[k + 1]) {
        if k > 0 { assert DependsOn(g, rest[k - 1], rest[k]); }
      }
    }
  }

  /** Pigeonhole: a sequence longer than the set it draws from repeats an element. */
  lemma {:induction false} Repeats<T>(w: seq<T>, s: set<T>) returns (i: nat, j: nat)
    requires forall k :: 0 <= k < |w| ==> w[k] in s
    requires |w| > |s|
    ensures i < j < |w| && w[i] == w[j]
  {
    var last := w[|w| - 1];
    var front := w[..|w| - 1];
    if last in front {
      i :| 0 <= i < |front| && front[i] == last;
      j := |w| - 1;
    } else {
      i, j := Repeats(front, s - {last});
    }
  }

  /**
   The deadlock verdict, on every graph: when no task is ready and the graph is not complete,
   an undone task misses a dependency, undone tasks form a cycle, or some task is halted.
   */
  lemma StuckHasCause(g: Graph)
    requires UniqueIds(g) && NextTask(g).None? && !IsComplete(g)
    ensures OpenMissing(g) || OpenCycle(g) || HasHaltedTask(g)
    ensures HasMissingDependency(g) || HasCycle(g) || HasHaltedTask(g)
  {
    if !OpenMissing(g) && !HasHaltedTask(g) {
      var i :| 0 <= i < |g| && g[i].status != Done;
      assert g[i].id in Ids(g) - DoneIds(g);
      var w := UndoneWalk(g, g[i].id, |Ids(g)|);
      var a, b := Repeats(w, Ids(g));
      var c := w[a..b + 1];
      assert IsCycle(g, c);
      assert forall k :: 0 <= k < |c| ==> c[k] == w[a + k];
    }
  }

  /**
   On a graph whose tasks are pending or done and whose undone part is closed and acyclic, the
   planner returns nothing exactly when every task is done: the deadlock branch is dead there.
   */
  lemma NothingReadyIffComplete(g: Graph)
    requires UniqueIds(g) && !OpenMissing(g) && !OpenCycle(g) && !HasHaltedTask(g)
    ensures NextTask(g).None? <==> IsComplete(g)
  {
    if NextTask(g).None? && !IsComplete(g) {
      StuckHasCause(g);
    }
  }
}
