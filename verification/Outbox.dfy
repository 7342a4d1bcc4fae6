/**
 The transactional outbox: rows are appended, leased to a worker, and completed or given back.

 A row's identifier is its position.  A worker that lost its lease to a stale release may still
 complete or give back the row afterwards, so those two steps may name any row at any time.
 */
module Outbox {
  import opened Wrappers
  import opened Sequences

  datatype Row = Row(kind: string, aggregate: string, available: int,
                     claimed: Option<int>, completed: bool, attempts: nat)

  type Rows = seq<Row>

  const BUSY_BACKOFF := 2
  const LEASE := 300

  function NewRow(kind: string, aggregate: string, now: int): Row {
    Row(kind, aggregate, now, None, false, 0)
  }

  /** A row some worker holds. */
  predicate Active(row: Row) {
    !row.completed && row.claimed.Some?
  }

  predicate Eligible(rows: Rows, now: int, id: nat) {
    && id < |rows|
    && !rows[id].completed && rows[id].claimed.None? && rows[id].available <= now
    && forall i :: 0 <= i < |rows| && Active(rows[i]) ==> rows[i].aggregate != rows[id].aggregate
  }

  /** The eligible row with the smallest identifier, from `id` on. */
  function PickedFrom(rows: Rows, now: int, id: nat): (picked: Option<nat>)
    requires id <= |rows|
    ensures picked.Some? ==> id <= picked.value < |rows| && Eligible(rows, now, picked.value)
    ensures picked.Some? ==> forall i :: id <= i < picked.value ==> !Eligible(rows, now, i)
    ensures picked.None? ==> forall i :: id <= i < |rows| ==> !Eligible(rows, now, i)
    decreases |rows| - id
  {
    if id == |rows| then None
    else if Eligible(rows, now, id) then Some(id)
    else PickedFrom(rows, now, id + 1)
  }

  function Picked(rows: Rows, now: int): (picked: Option<nat>)
    ensures picked.Some? ==> Eligible(rows, now, picked.value)
  {
    PickedFrom(rows, now, 0)
  }

  function Claim(rows: Rows, now: int): Rows {
    match Picked(rows, now)
    case None => rows
    case Some(id) => rows[id := rows[id].(claimed := Some(now), attempts := rows[id].attempts + 1)]
  }

  function Complete(rows: Rows, id: nat): Rows
    requires id < |rows|
  {
    rows[id := rows[id].(completed := true)]
  }

  function GiveBack(rows: Rows, id: nat, now: int): Rows
    requires id < |rows|
  {
    rows[id := rows[id].(claimed := None, available := now + BUSY_BACKOFF)]
  }

  function Released(row: Row, cutoff: int): Row {
    if !row.completed && row.claimed.Some? && row.claimed.value < cutoff then row.(claimed := None) else row
  }

  function Release(rows: Rows, cutoff: int): Rows {
    seq(|rows|, i requires 0 <= i < |rows| => Released(rows[i], cutoff))
  }

  // ---------------------------------------------------------------- the table

  class Table {
    var rows: Rows

    constructor ()
      ensures rows == []
    {
      rows := [];
    }

    method Enqueue(kind: string, aggregate: string, now: int)
      modifies this
      ensures rows == old(rows) + [NewRow(kind, aggregate, now)]
    {
      rows := rows + [NewRow(kind, aggregate, now)];
    }

    method ClaimOutbox(now: int) returns (claimed: Option<nat>)
      modifies this
      ensures claimed == Picked(old(rows), now) && rows == Claim(old(rows), now)
    {
      claimed := Picked(rows, now);
      if claimed.Some? {
        var id := claimed.value;
        rows := rows[id := rows[id].(claimed := Some(now), attempts := rows[id].attempts + 1)];
      }
    }

    /** What the handler writes back: a busy project returns the row, anything else completes it. */
    method Settle(id: nat, projectBusy: bool, now: int)
      requires id < |rows|
      modifies this
      ensures rows == if projectBusy then GiveBack(old(rows), id, now) else Complete(old(rows), id)
    {
      if projectBusy {
        rows := rows[id := rows[id].(claimed := None, available := now + BUSY_BACKOFF)];
      } else {
        rows := rows[id := rows[id].(completed := true)];
      }
    }

    /** The bulk update of the watchdog, row by row. */
    method ReleaseStale(now: int)
      modifies this
      ensures rows == Release(old(rows), now - LEASE)
    {
      var i := 0;
      while i < |rows|
        invariant 0 <= i <= |rows| == |old(rows)|
        invariant forall k :: 0 <= k < i ==> rows[k] == Released(old(rows)[k], now - LEASE)
        invariant forall k :: i <= k < |rows| ==> rows[k] == old(rows)[k]
      {
        rows := rows[i := Released(rows[i], now - LEASE)];
        i := i + 1;
      }
    }
  }

  // ---------------------------------------------------------------- what each change means

  /** Nobody has finished or holds the row, its time has come, and no unfinished row of its aggregate is held. */
  ghost predicate Claimable(rows: Rows, now: int, id: int) {
    && 0 <= id < |rows|
    && !rows[id].completed && rows[id].claimed == None && rows[id].available <= now
    && forall i :: 0 <= i < |rows| && rows[i].aggregate == rows[id].aggregate ==> rows[i].completed || rows[i].claimed == None
  }

  /** A claim leases the first claimable row and counts the attempt; without one it changes nothing. */
  lemma ClaimLeasesFirst(rows: Rows, now: int, id: int)
    requires Claimable(rows, now, id) && forall i :: 0 <= i < id ==> !Claimable(rows, now, i)
    ensures Picked(rows, now) == Some(id)
    ensures Claim(rows, now) == rows[id := rows[id].(claimed := Some(now), attempts := rows[id].attempts + 1)]
  {
    forall i: nat ensures Claimable(rows, now, i) <==> Eligible(rows, now, i) { ClaimableIsEligible(rows, now, i); }
  }

  lemma NothingToClaim(rows: Rows, now: int)
    requires forall i :: 0 <= i < |rows| ==> !Claimable(rows, now, i)
    ensures Picked(rows, now) == None && Claim(rows, now) == rows
  {
    forall i: nat ensures Claimable(rows, now, i) <==> Eligible(rows, now, i) { ClaimableIsEligible(rows, now, i); }
  }

  lemma ClaimableIsEligible(rows: Rows, now: int, id: nat)
    ensures Claimable(rows, now, id) <==> Eligible(rows, now, id)
  {
  }

  /** The stale release ends the leases that are more than five minutes old, on unfinished rows, and touches nothing else. */
  lemma LeasesLapse(rows: Rows, now: int, i: nat)
    requires i < |rows|
    ensures |Release(rows, now - LEASE)| == |rows|
    ensures var row, after := rows[i], Release(rows, now - LEASE)[i];
            && after == row.(claimed := after.claimed)
            && (after.claimed != row.claimed <==> !row.completed && row.claimed.Some? && now - row.claimed.value > 300)
            && (after.claimed != row.claimed ==> after.claimed == None)
  {
  }

  /** A row given back because the project is busy cannot be claimed for two seconds; every other row stays. */
  lemma BusyRowBacksOff(rows: Rows, id: nat, now: int, later: int)
    requires id < |rows| && now <= later < now + 2
    ensures |GiveBack(rows, id, now)| == |rows| && forall i :: 0 <= i < |rows| && i != id ==> GiveBack(rows, id, now)[i] == rows[i]
    ensures var row := GiveBack(rows, id, now)[id];
            row == rows[id].(claimed := None, available := row.available) && row.available == now + 2
    ensures !Claimable(GiveBack(rows, id, now), later, id) && Picked(GiveBack(rows, id, now), later) != Some(id)
  {
  }

  // ---------------------------------------------------------------- histories

  datatype Op =
    | Enqueued(kind: string, aggregate: string, now: int)
    | Claimed(now: int)
    | Completed(id: nat)
    | WasBusy(id: nat, now: int)
    | StaleReleased(cutoff: int)

  function Apply(rows: Rows, op: Op): Rows {
    match op
    case Enqueued(kind, aggregate, now) => rows + [NewRow(kind, aggregate, now)]
    case Claimed(now) => Claim(rows, now)
    case Completed(id) => if id < |rows| then Complete(rows, id) else rows
    case WasBusy(id, now) => if id < |rows| then GiveBack(rows, id, now) else rows
    case StaleReleased(cutoff) => Release(rows, cutoff)
  }

  /** The table after any interleaving of transactions, starting empty. */
  function After(ops: seq<Op>): Rows {
    if ops == [] then [] else Apply(After(Front(ops)), ops[|ops| - 1])
  }

  function Enqueues(ops: seq<Op>): seq<Op> {
    if ops == [] then []
    else if ops[|ops| - 1].Enqueued? then Enqueues(Front(ops)) + [ops[|ops| - 1]]
    else Enqueues(Front(ops))
  }

  /** Did this transaction lease the row to a worker? */
  predicate Takes(rows: Rows, op: Op, id: nat) {
    op.Claimed? && Picked(rows, op.now) == Some(id)
  }

  /** Did this transaction end a lease without completing the row? */
  predicate Returns(rows: Rows, op: Op, id: nat) {
    id < |rows| && rows[id].claimed.Some? && (op.WasBusy? || op.StaleReleased?) && Apply(rows, op)[id].claimed.None?
  }

  function Claims(ops: seq<Op>, id: nat): nat {
    if ops == [] then 0 else Claims(Front(ops), id) + if Takes(After(Front(ops)), ops[|ops| - 1], id) then 1 else 0
  }

  function Returned(ops: seq<Op>, id: nat): nat {
    if ops == [] then 0 else Returned(Front(ops), id) + if Returns(After(Front(ops)), ops[|ops| - 1], id) then 1 else 0
  }

  ghost predicate OneActivePerAggregate(rows: Rows) {
    forall i, j :: 0 <= i < j < |rows| && Active(rows[i]) && Active(rows[j]) ==> rows[i].aggregate != rows[j].aggregate
  }

  lemma ApplyKeepsExclusion(rows: Rows, op: Op)
    requires OneActivePerAggregate(rows)
    ensures OneActivePerAggregate(Apply(rows, op))
  {
    var next := Apply(rows, op);
    if !op.Claimed? {
      assert forall i :: 0 <= i < |next| && Active(next[i]) ==> i < |rows| && Active(rows[i]) && next[i].aggregate == rows[i].aggregate;
    }
  }

  /** Under any interleaving at most one unfinished row of an aggregate is held. */
  lemma {:induction false} MutualExclusion(ops: seq<Op>)
    ensures OneActivePerAggregate(After(ops))
  {
    if ops != [] {
      MutualExclusion(Front(ops));
      ApplyKeepsExclusion(After(Front(ops)), ops[|ops| - 1]);
    }
  }

  /** No row is lost, added or renamed: the table is the enqueued events in their order. */
  lemma {:induction false} NothingLost(ops: seq<Op>)
    ensures |After(ops)| == |Enqueues(ops)|
    ensures forall i :: 0 <= i < |After(ops)| ==>
              Enqueues(ops)[i].Enqueued? && After(ops)[i].kind == Enqueues(ops)[i].kind
              && After(ops)[i].aggregate == Enqueues(ops)[i].aggregate
  {
    if ops != [] {
      NothingLost(Front(ops));
    }
  }

  lemma ApplyBalances(rows: Rows, op: Op, id: nat)
    requires id < |rows|
    ensures var next := Apply(rows, op);
            && id < |next|
            && next[id].attempts == rows[id].attempts + (if Takes(rows, op, id) then 1 else 0)
            && (if next[id].claimed.Some? then 1 else 0)
               == (if rows[id].claimed.Some? then 1 else 0)
                  + (if Takes(rows, op, id) then 1 else 0) - (if Returns(rows, op, id) then 1 else 0)
  {
  }

  lemma {:induction false} UnknownRowIsIdle(ops: seq<Op>, id: nat)
    requires id >= |After(ops)|
    ensures Claims(ops, id) == 0 && Returned(ops, id) == 0
  {
    if ops != [] {
      assert |After(Front(ops))| <= |After(ops)|;
      UnknownRowIsIdle(Front(ops), id);
    }
  }

  /**
   Attempts count leases, and leases balance: every lease of a row is still held (or was held
   when the row completed) or was returned.  A row is therefore handled a second time only
   after a busy back-off or a stale release of that very row.
   */
  lemma {:induction false} LeasesBalance(ops: seq<Op>, id: nat)
    requires id < |After(ops)|
    ensures After(ops)[id].attempts == Claims(ops, id)
    ensures Claims(ops, id) == Returned(ops, id) + if After(ops)[id].claimed.Some? then 1 else 0
  {
    var rows := After(Front(ops));
    if id < |rows| {
      LeasesBalance(Front(ops), id);
      ApplyBalances(rows, ops[|ops| - 1], id);
    } else {
      UnknownRowIsIdle(Front(ops), id);
    }
  }

  /** A completed row stays completed and is never leased again. */
  lemma {:induction false} CompletedIsFinal(ops: seq<Op>, more: seq<Op>, id: nat)
    requires id < |After(ops)| && After(ops)[id].completed
    ensures id < |After(ops + more)| && After(ops + more)[id].completed
    ensures Claims(ops + more, id) == Claims(ops, id)
  {
    if more == [] {
      assert ops + more == ops;
    } else {
      assert Front(ops + more) == ops + Front(more);
      CompletedIsFinal(ops, Front(more), id);
      ApplyBalances(After(ops + Front(more)), more[|more| - 1], id);
    }
  }

  /** When a row is leased, every earlier row of its aggregate has completed or is backing off. */
  lemma EarlierRowsFirst(ops: seq<Op>, now: int, i: nat, j: nat)
    requires Picked(After(ops), now) == Some(j) && i < j
    requires After(ops)[i].aggregate == After(ops)[j].aggregate
    ensures After(ops)[i].completed || After(ops)[i].available > now
  {
    var rows := After(ops);
    assert !Eligible(rows, now, i);
    assert !Active(rows[i]);
  }

  // ---------------------------------------------------------------- draining

  function Unfinished(rows: Rows): nat {
    if rows == [] then 0 else Unfinished(rows[..|rows| - 1]) + if rows[|rows| - 1].completed then 0 else 1
  }

  lemma {:induction false} CompletingCounts(rows: Rows, id: nat, row: Row)
    requires id < |rows| && !rows[id].completed && row.completed
    ensures Unfinished(rows[id := row]) == Unfinished(rows) - 1
  {
    var last := |rows| - 1;
    if id == last {
      assert rows[id := row][..last] == rows[..last];
    } else {
      assert rows[id := row][..last] == rows[..last][id := row];
      CompletingCounts(rows[..last], id, row);
    }
  }

  ghost predicate Idle(rows: Rows, now: int) {
    forall i :: 0 <= i < |rows| && !rows[i].completed ==> rows[i].claimed.None? && rows[i].available <= now
  }

  /** One worker claiming and completing, so many times over. */
  function Rounds(rows: Rows, now: int, n: nat): Rows
    decreases n
  {
    if n == 0 then rows
    else match Picked(rows, now)
      case None => rows
      case Some(id) => Rounds(Complete(Claim(rows, now), id), now, n - 1)
  }

  lemma {:induction false} NoneUnfinished(rows: Rows)
    ensures Unfinished(rows) == 0 <==> forall i :: 0 <= i < |rows| ==> rows[i].completed
  {
    if rows != [] {
      NoneUnfinished(rows[..|rows| - 1]);
      assert forall i :: 0 <= i < |rows| - 1 ==> rows[i] == rows[..|rows| - 1][i];
    }
  }

  /** Nothing gets stuck: once leases have lapsed, as many rounds as unfinished rows finish them all. */
  lemma {:induction false} RoundsDrain(rows: Rows, now: int)
    requires Idle(rows, now)
    ensures |Rounds(rows, now, Unfinished(rows))| == |rows|
    ensures forall row :: row in Rounds(rows, now, Unfinished(rows)) ==> row.completed
    decreases Unfinished(rows)
  {
    NoneUnfinished(rows);
    if Unfinished(rows) > 0 {
      var next := OneRound(rows, now);
      RoundsDrain(next, now);
    }
  }

  lemma OneRound(rows: Rows, now: int) returns (next: Rows)
    requires Idle(rows, now) && Unfinished(rows) > 0
    ensures |next| == |rows| && Idle(next, now) && Unfinished(next) == Unfinished(rows) - 1
    ensures Rounds(rows, now, Unfinished(rows)) == Rounds(next, now, Unfinished(next))
  {
    NoneUnfinished(rows);
    var i :| 0 <= i < |rows| && !rows[i].completed;
    assert Eligible(rows, now, i);
    var id := Picked(rows, now).value;
    next := Complete(Claim(rows, now), id);
    ClaimThenComplete(rows, now, id);
    CompletingCounts(rows, id, next[id]);
  }

  lemma ClaimThenComplete(rows: Rows, now: int, id: nat)
    requires Picked(rows, now) == Some(id)
    ensures id < |Claim(rows, now)|
    ensures var next := Complete(Claim(rows, now), id); |next| == |rows| && next[id].completed && next == rows[id := next[id]]
  {
  }
}
