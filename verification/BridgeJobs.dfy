/**
 The job table of the deployment bridge: the orchestrator creates jobs, a runner polls for the
 oldest one that has not expired, and results are written by job identifier.

 Records are kept in creation order.  Nothing makes the identifier unique: an automatic rollback
 is created under the identifier of the deployment it undoes.
 */
module BridgeJobs {
  import opened Wrappers
  import opened Sequences

  datatype Status = Queued | Running | Succeeded | Failed | RolledBack

  datatype Job = Job(uuid: string, digest: string, expires: int, status: Status, runner: Option<string>)

  type Jobs = seq<Job>

  datatype Reply<T> = Ok(value: T) | NotFound | Forbidden

  predicate Waiting(job: Job, now: int) {
    job.status == Queued && job.expires > now
  }

  /** The oldest job still waiting, from position i on. */
  function OldestFrom(jobs: Jobs, now: int, i: nat): (found: Option<nat>)
    requires i <= |jobs|
    ensures found.Some? ==> i <= found.value < |jobs| && Waiting(jobs[found.value], now)
    ensures forall k :: i <= k < (if found.Some? then found.value else |jobs|) ==> !Waiting(jobs[k], now)
    decreases |jobs| - i
  {
    if i == |jobs| then None
    else if Waiting(jobs[i], now) then Some(i)
    else OldestFrom(jobs, now, i + 1)
  }

  function Oldest(jobs: Jobs, now: int): (found: Option<nat>)
    ensures found.Some? ==> found.value < |jobs| && Waiting(jobs[found.value], now)
  {
    OldestFrom(jobs, now, 0)
  }

  /** The newest record under an identifier: searches list newer records first. */
  function Newest(jobs: Jobs, uuid: string): (found: Option<nat>)
    ensures found.Some? ==> found.value < |jobs| && jobs[found.value].uuid == uuid
    ensures found.Some? ==> forall k :: found.value < k < |jobs| ==> jobs[k].uuid != uuid
    ensures found.None? ==> forall k :: 0 <= k < |jobs| ==> jobs[k].uuid != uuid
  {
    if jobs == [] then None
    else if jobs[|jobs| - 1].uuid == uuid then Some(|jobs| - 1)
    else Newest(jobs[..|jobs| - 1], uuid)
  }

  function Dispatch(jobs: Jobs, now: int, runner: string): Jobs {
    match Oldest(jobs, now)
    case None => jobs
    case Some(i) => jobs[i := jobs[i].(status := Running, runner := Some(runner))]
  }

  function Report(jobs: Jobs, uuid: string, state: Option<Status>): Jobs {
    match Newest(jobs, uuid)
    case None => jobs
    case Some(i) => if state.None? || state.value == Queued then jobs else jobs[i := jobs[i].(status := state.value)]
  }

  class JobTable {
    var jobs: Jobs

    constructor ()
      ensures jobs == []
    {
      jobs := [];
    }

    method CreateJob(uuid: string, digest: string, expires: int, fieldsAsExpected: bool) returns (reply: Reply<Status>)
      modifies this
      ensures jobs == old(jobs) + if fieldsAsExpected then [Job(uuid, digest, expires, Queued, None)] else []
      ensures reply == if fieldsAsExpected then Ok(Queued) else Forbidden
    {
      if !fieldsAsExpected {
        return Forbidden;
      }
      jobs := jobs + [Job(uuid, digest, expires, Queued, None)];
      reply := Ok(Queued);
    }

    method NextJob(now: int, runner: string) returns (given: Option<Job>)
      modifies this
      ensures jobs == Dispatch(old(jobs), now, runner)
      ensures given == match Oldest(old(jobs), now)
                       case None => None
                       case Some(i) => Some(jobs[i])
    {
      var found := Oldest(jobs, now);
      if found.None? {
        return None;
      }
      jobs := jobs[found.value := jobs[found.value].(status := Running, runner := Some(runner))];
      given := Some(jobs[found.value]);
    }

    /** A state outside the four a runner may report is `None`. */
    method JobResult(uuid: string, state: Option<Status>) returns (reply: Reply<Status>)
      modifies this
      ensures jobs == Report(old(jobs), uuid, state)
      ensures reply == if Newest(old(jobs), uuid).None? then NotFound
                       else if state.None? || state.value == Queued then Forbidden
                       else Ok(state.value)
    {
      var found := Newest(jobs, uuid);
      if found.None? {
        return NotFound;
      }
      if state.None? || state.value == Queued {
        return Forbidden;
      }
      jobs := jobs[found.value := jobs[found.value].(status := state.value)];
      reply := Ok(state.value);
    }
  }

  // ---------------------------------------------------------------- histories

  datatype Op =
    | Created(uuid: string, digest: string, expires: int)
    | Polled(now: int, runner: string)
    | Reported(uuid: string, state: Option<Status>)

  function Apply(jobs: Jobs, op: Op): Jobs {
    match op
    case Created(uuid, digest, expires) => jobs + [Job(uuid, digest, expires, Queued, None)]
    case Polled(now, runner) => Dispatch(jobs, now, runner)
    case Reported(uuid, state) => Report(jobs, uuid, state)
  }

  function After(ops: seq<Op>): Jobs {
    if ops == [] then [] else Apply(After(Front(ops)), ops[|ops| - 1])
  }

  predicate Gives(jobs: Jobs, op: Op, i: nat) {
    op.Polled? && Oldest(jobs, op.now) == Some(i)
  }

  /** A result that lands on a record no runner was ever given. */
  predicate Overtakes(jobs: Jobs, op: Op, i: nat) {
    && op.Reported? && Newest(jobs, op.uuid) == Some(i)
    && op.state.Some? && op.state.value != Queued && jobs[i].status == Queued
  }

  function Dispatches(ops: seq<Op>, i: nat): nat {
    if ops == [] then 0 else Dispatches(Front(ops), i) + if Gives(After(Front(ops)), ops[|ops| - 1], i) then 1 else 0
  }

  function Overtakings(ops: seq<Op>, i: nat): nat {
    if ops == [] then 0 else Overtakings(Front(ops), i) + if Overtakes(After(Front(ops)), ops[|ops| - 1], i) then 1 else 0
  }

  lemma StepAccounts(jobs: Jobs, op: Op, i: nat)
    requires i < |jobs|
    ensures var next := Apply(jobs, op);
            && |next| >= |jobs| && next[i].uuid == jobs[i].uuid && next[i].digest == jobs[i].digest
            && (if next[i].status != Queued then 1 else 0)
               == (if jobs[i].status != Queued then 1 else 0)
                  + (if Gives(jobs, op, i) then 1 else 0) + (if Overtakes(jobs, op, i) then 1 else 0)
  {
  }

  lemma {:induction false} UnknownJobIsUntouched(ops: seq<Op>, i: nat)
    requires i >= |After(ops)|
    ensures Dispatches(ops, i) == 0 && Overtakings(ops, i) == 0
  {
    if ops != [] {
      assert |After(Front(ops))| <= |After(ops)|;
      UnknownJobIsUntouched(Front(ops), i);
    }
  }

  /**
   A record leaves the queue at most once, and by exactly one of two doors: it is given to a
   runner, or a result written under its identifier lands on it first.
   */
  lemma {:induction false} LeavesQueueOnce(ops: seq<Op>, i: nat)
    requires i < |After(ops)|
    ensures Dispatches(ops, i) + Overtakings(ops, i) == if After(ops)[i].status != Queued then 1 else 0
  {
    if i < |After(Front(ops))| {
      LeavesQueueOnce(Front(ops), i);
      StepAccounts(After(Front(ops)), ops[|ops| - 1], i);
    } else {
      UnknownJobIsUntouched(Front(ops), i);
    }
  }

  /** Jobs are given out oldest first: those before a dispatched one have left the queue or expired. */
  lemma OldestFirst(ops: seq<Op>, now: int, i: nat, j: nat)
    requires Oldest(After(ops), now) == Some(j) && i < j
    ensures After(ops)[i].status != Queued || After(ops)[i].expires <= now
  {
    assert !Waiting(After(ops)[i], now);
  }

  // ---------------------------------------------------------------- what is stored

  /** A result is stored as reported on the newest record of its identifier, and nowhere else. */
  lemma ResultIsStored(jobs: Jobs, uuid: string, state: Status, i: nat)
    requires i < |jobs| && jobs[i].uuid == uuid && forall k :: i < k < |jobs| ==> jobs[k].uuid != uuid
    ensures Report(jobs, uuid, Some(state)) == if state == Queued then jobs else jobs[i := jobs[i].(status := state)]
    ensures Report(jobs, uuid, None) == jobs
  {
  }

  /** A poll gives out the first queued record that has not expired, and only that one changes. */
  lemma FirstWaitingIsGiven(jobs: Jobs, now: int, runner: string, i: nat)
    requires i < |jobs| && jobs[i].status == Queued && jobs[i].expires > now
    requires forall k :: 0 <= k < i ==> jobs[k].status != Queued || jobs[k].expires <= now
    ensures Oldest(jobs, now) == Some(i)
    ensures Dispatch(jobs, now, runner) == jobs[i := jobs[i].(status := Running, runner := Some(runner))]
  {
    assert forall k :: 0 <= k < i ==> !Waiting(jobs[k], now);
    assert Waiting(jobs[i], now);
  }

  lemma GivenIffFirstWaiting(jobs: Jobs, now: int, runner: string, i: nat)
    requires i < |jobs|
    ensures Oldest(jobs, now) == Some(i) <==>
            && jobs[i].status == Queued && jobs[i].expires > now
            && forall k :: 0 <= k < i ==> jobs[k].status != Queued || jobs[k].expires <= now
  {
    if Oldest(jobs, now) == Some(i) {
      forall k | 0 <= k < i ensures jobs[k].status != Queued || jobs[k].expires <= now {
        assert !Waiting(jobs[k], now) by { assert OldestFrom(jobs, now, 0) == Some(i); }
      }
      assert Waiting(jobs[i], now);
    }
    if jobs[i].status == Queued && jobs[i].expires > now
       && forall k :: 0 <= k < i ==> jobs[k].status != Queued || jobs[k].expires <= now {
      FirstWaitingIsGiven(jobs, now, runner, i);
    }
  }

  /** The operation writes the status of record i: a poll that gives it out, or a permitted result. */
  ghost predicate Writes(jobs: Jobs, op: Op, i: nat, status: Status) {
    && i < |jobs|
    && match op
       case Created(_, _, _) => false
       case Polled(now, _) =>
         && status == Running && jobs[i].status == Queued && jobs[i].expires > now
         && forall k :: 0 <= k < i ==> jobs[k].status != Queued || jobs[k].expires <= now
       case Reported(uuid, state) =>
         && state == Some(status) && status != Queued && jobs[i].uuid == uuid
         && forall k :: i < k < |jobs| ==> jobs[k].uuid != uuid
  }

  lemma StepWrites(jobs: Jobs, op: Op, i: nat)
    requires i < |jobs|
    ensures i < |Apply(jobs, op)|
    ensures forall status :: Writes(jobs, op, i, status) ==> Apply(jobs, op)[i].status == status
    ensures (forall status :: !Writes(jobs, op, i, status)) ==> Apply(jobs, op)[i] == jobs[i]
  {
    match op
    case Created(_, _, _) =>
    case Polled(now, runner) =>
      GivenIffFirstWaiting(jobs, now, runner, i);
      assert Writes(jobs, op, i, Running) <==> Oldest(jobs, now) == Some(i);
    case Reported(uuid, state) =>
      if state.Some? && Writes(jobs, op, i, state.value) { ResultIsStored(jobs, uuid, state.value, i); }
  }

  ghost predicate WritesAt(ops: seq<Op>, k: int, i: nat, status: Status) {
    0 <= k < |ops| && Writes(After(ops[..k]), ops[k], i, status)
  }

  /** The j-th operation writes this status to record i, and no later one writes any. */
  ghost predicate LastWord(ops: seq<Op>, i: nat, j: nat, status: Status) {
    WritesAt(ops, j, i, status) && forall k, other :: j < k ==> !WritesAt(ops, k, i, other)
  }

  lemma WritesBefore(ops: seq<Op>, k: int, i: nat, status: Status)
    requires ops != []
    ensures k < |ops| - 1 ==> (WritesAt(Front(ops), k, i, status) <==> WritesAt(ops, k, i, status))
    ensures k == |ops| - 1 ==> (WritesAt(ops, k, i, status) <==> Writes(After(Front(ops)), Last(ops), i, status))
  {
    if 0 <= k < |ops| { assert Front(ops)[..k] == ops[..k]; }
  }

  lemma LastWordBefore(ops: seq<Op>, i: nat, j: nat, status: Status)
    requires LastWord(ops, i, j, status) && j < |ops| - 1
    ensures LastWord(Front(ops), i, j, status)
    ensures forall other :: !Writes(After(Front(ops)), Last(ops), i, other)
  {
    forall k, other ensures k < |ops| - 1 ==> (WritesAt(Front(ops), k, i, other) <==> WritesAt(ops, k, i, other)) {
      WritesBefore(ops, k, i, other);
    }
    forall other ensures !Writes(After(Front(ops)), Last(ops), i, other) { WritesBefore(ops, |ops| - 1, i, other); }
  }

  /** However polls and results interleave, a record stands as the last of them to reach it wrote it. */
  lemma {:induction false} LastWordStands(ops: seq<Op>, i: nat, j: nat, status: Status)
    requires LastWord(ops, i, j, status)
    ensures i < |After(ops)| && After(ops)[i].status == status
  {
    if j == |ops| - 1 {
      WritesBefore(ops, j, i, status);
    } else {
      LastWordBefore(ops, i, j, status);
      LastWordStands(Front(ops), i, j, status);
    }
    StepWrites(After(Front(ops)), Last(ops), i);
  }

  /** And one that none of them reached is queued. */
  lemma {:induction false} UnwrittenIsQueued(ops: seq<Op>, i: nat)
    requires i < |After(ops)| && forall k, status :: !WritesAt(ops, k, i, status)
    ensures After(ops)[i].status == Queued
  {
    if i < |After(Front(ops))| {
      forall k, status ensures !WritesAt(Front(ops), k, i, status) { WritesBefore(ops, k, i, status); }
      UnwrittenIsQueued(Front(ops), i);
      forall status ensures !Writes(After(Front(ops)), Last(ops), i, status) { WritesBefore(ops, |ops| - 1, i, status); }
      StepWrites(After(Front(ops)), Last(ops), i);
    }
  }

  // ---------------------------------------------------------------- honest runners

  /** The identifiers some runner has been given. */
  function GivenOut(ops: seq<Op>): set<string> {
    if ops == [] then {}
    else
      var jobs, op := After(Front(ops)), ops[|ops| - 1];
      GivenOut(Front(ops)) + if op.Polled? && Oldest(jobs, op.now).Some? then {jobs[Oldest(jobs, op.now).value].uuid} else {}
  }

  /** Runners report only on jobs they were given. */
  predicate Honest(ops: seq<Op>) {
    ops != [] ==>
      && Honest(Front(ops))
      && (ops[|ops| - 1].Reported? ==> ops[|ops| - 1].uuid in GivenOut(Front(ops)))
  }

  ghost predicate DistinctIds(jobs: Jobs) {
    forall i, j :: 0 <= i < j < |jobs| ==> jobs[i].uuid != jobs[j].uuid
  }

  lemma {:induction false} DistinctBefore(ops: seq<Op>)
    requires ops != [] && DistinctIds(After(ops))
    ensures DistinctIds(After(Front(ops)))
  {
    var jobs := After(Front(ops));
    forall i | 0 <= i < |jobs| ensures i < |After(ops)| && After(ops)[i].uuid == jobs[i].uuid {
      StepAccounts(jobs, ops[|ops| - 1], i);
    }
  }

  /** What has been given out is exactly what has left the queue. */
  ghost predicate Tallied(jobs: Jobs, given: set<string>) {
    && (forall i :: 0 <= i < |jobs| ==> (jobs[i].uuid in given <==> jobs[i].status != Queued))
    && (forall uuid <- given :: Newest(jobs, uuid).Some?)
  }

  lemma TallyCreated(jobs: Jobs, given: set<string>, job: Job)
    requires Tallied(jobs, given) && job.status == Queued && DistinctIds(jobs + [job])
    ensures Tallied(jobs + [job], given)
  {
    var next := jobs + [job];
    assert forall i :: 0 <= i < |jobs| ==> next[i] == jobs[i] && next[i].uuid != next[|jobs|].uuid;
    assert next[..|jobs|] == jobs;
    forall uuid | uuid in given ensures uuid != job.uuid && Newest(next, uuid).Some? {
      var k := Newest(jobs, uuid).value;
      assert next[k].uuid != next[|jobs|].uuid;
    }
  }

  lemma TallyPolled(jobs: Jobs, given: set<string>, now: int, runner: string)
    requires Tallied(jobs, given) && DistinctIds(jobs) && Oldest(jobs, now).Some?
    ensures Tallied(Dispatch(jobs, now, runner), given + {jobs[Oldest(jobs, now).value].uuid})
  {
    var i, next := Oldest(jobs, now).value, Dispatch(jobs, now, runner);
    assert forall k :: 0 <= k < |jobs| ==> next[k].uuid == jobs[k].uuid && (k != i ==> next[k] == jobs[k] && jobs[k].uuid != jobs[i].uuid);
  }

  lemma TallyReported(jobs: Jobs, given: set<string>, uuid: string, state: Option<Status>)
    requires Tallied(jobs, given) && uuid in given
    ensures Tallied(Report(jobs, uuid, state), given)
  {
    assert forall k :: 0 <= k < |jobs| ==> Report(jobs, uuid, state)[k].uuid == jobs[k].uuid;
  }

  /** With identifiers used once, what has been given out is exactly what has left the queue. */
  lemma {:induction false} GivenOutLeftQueue(ops: seq<Op>)
    requires Honest(ops) && DistinctIds(After(ops))
    ensures Tallied(After(ops), GivenOut(ops))
  {
    if ops != [] {
      var jobs, op := After(Front(ops)), ops[|ops| - 1];
      DistinctBefore(ops);
      GivenOutLeftQueue(Front(ops));
      match op
      case Created(uuid, digest, expires) => TallyCreated(jobs, GivenOut(Front(ops)), Job(uuid, digest, expires, Queued, None));
      case Polled(now, runner) => if Oldest(jobs, now).Some? { TallyPolled(jobs, GivenOut(Front(ops)), now, runner); }
      case Reported(uuid, state) => TallyReported(jobs, GivenOut(Front(ops)), uuid, state);
    }
  }

  /** Honest runners and identifiers used once: a record has left the queue iff it was dispatched, once. */
  lemma {:induction false} DispatchedExactlyOnce(ops: seq<Op>, i: nat)
    requires Honest(ops) && DistinctIds(After(ops)) && i < |After(ops)|
    ensures Overtakings(ops, i) == 0
    ensures Dispatches(ops, i) == if After(ops)[i].status != Queued then 1 else 0
  {
    LeavesQueueOnce(ops, i);
    if i < |After(Front(ops))| {
      DistinctBefore(ops);
      DispatchedExactlyOnce(Front(ops), i);
      GivenOutLeftQueue(Front(ops));
      NoOvertaking(ops, i);
    } else {
      UnknownJobIsUntouched(Front(ops), i);
    }
  }

  lemma NoOvertaking(ops: seq<Op>, i: nat)
    requires ops != [] && Honest(ops) && i < |After(Front(ops))|
    requires After(Front(ops))[i].uuid in GivenOut(Front(ops)) <==> After(Front(ops))[i].status != Queued
    ensures !Overtakes(After(Front(ops)), ops[|ops| - 1], i)
  {
  }

  /** A job, its runner's report, a second record under its identifier, and the report once more. */
  function ReusedId(): seq<Op> {
    [Created("d", "new", 9)] + [Polled(1, "r")] + [Reported("d", Some(Succeeded))]
    + [Created("d", "prior", 9)] + [Reported("d", Some(Succeeded))] + [Polled(2, "r")]
  }

  /** One more operation after a history. */
  lemma AfterThen(ops: seq<Op>, op: Op)
    ensures After(ops + [op]) == Apply(After(ops), op)
    ensures Honest(ops + [op]) <==> Honest(ops) && (op.Reported? ==> op.uuid in GivenOut(ops))
    ensures GivenOut(ops) <= GivenOut(ops + [op])
    ensures Gives(After(ops), op, 0) && 0 < |After(ops)| ==> After(ops)[0].uuid in GivenOut(ops + [op])
    ensures forall i :: Overtakings(ops + [op], i) == Overtakings(ops, i) + if Overtakes(After(ops), op, i) then 1 else 0
  {
    assert Front(ops + [op]) == ops;
  }

  function Finished(digest: string): Job {
    Job("d", digest, 9, Succeeded, Some("r"))
  }

  lemma FirstJobRuns()
    ensures var ops := [Created("d", "new", 9)] + [Polled(1, "r")];
            && After(ops) == [Finished("new").(status := Running)] && Honest(ops) && "d" in GivenOut(ops)
  {
    var none: seq<Op> := [];
    AfterThen(none, Created("d", "new", 9));
    assert none + [Created("d", "new", 9)] == [Created("d", "new", 9)];
    AfterThen([Created("d", "new", 9)], Polled(1, "r"));
    assert Oldest([Job("d", "new", 9, Queued, None)], 1) == Some(0);
  }

  lemma RollbackIsCreated()
    ensures var ops := [Created("d", "new", 9)] + [Polled(1, "r")] + [Reported("d", Some(Succeeded))] + [Created("d", "prior", 9)];
            && After(ops) == [Finished("new"), Job("d", "prior", 9, Queued, None)] && Honest(ops) && "d" in GivenOut(ops)
  {
    var ops := [Created("d", "new", 9)] + [Polled(1, "r")];
    FirstJobRuns();
    AfterThen(ops, Reported("d", Some(Succeeded)));
    assert Newest(After(ops), "d") == Some(0);
    AfterThen(ops + [Reported("d", Some(Succeeded))], Created("d", "prior", 9));
  }

  /**
   Reusing an identifier defeats this even with honest runners.  The orchestrator reads the first
   job's success and creates its rollback under the same identifier; the runner, which could not
   delete its report file, sends the report again: it lands on the rollback, which then counts as
   finished although no runner ever saw it.
   */
  lemma ReusedIdSkipsDispatch()
    ensures Honest(ReusedId()) && Dispatches(ReusedId(), 1) == 0
    ensures After(ReusedId()) == [Finished("new"), Finished("prior").(runner := None)]
  {
    var ops := [Created("d", "new", 9)] + [Polled(1, "r")] + [Reported("d", Some(Succeeded))] + [Created("d", "prior", 9)];
    var jobs := [Finished("new"), Finished("prior").(runner := None)];
    RollbackIsCreated();
    AfterThen(ops, Reported("d", Some(Succeeded)));
    assert Newest(After(ops), "d") == Some(1);
    AfterThen(ops + [Reported("d", Some(Succeeded))], Polled(2, "r"));
    assert Oldest(jobs, 2).None?;
    LeavesQueueOnce(ReusedId(), 1);
  }
}
