/** The event table: how `emit` numbers a run's events, and the two ordered reads of them. */
module EventLog {
  import opened Wrappers
  import opened EventFrames
  import opened Sequences

  function RunLog(rows: seq<ToolEvent>, runId: string): seq<ToolEvent> {
    if rows == [] then []
    else RunLog(rows[..|rows| - 1], runId)
         + (if rows[|rows| - 1].runId == runId then [rows[|rows| - 1]] else [])
  }

  /** The log of a run has exactly the run's rows. */
  lemma {:induction false} LogHasTheRows(rows: seq<ToolEvent>, runId: string, row: ToolEvent)
    ensures row in RunLog(rows, runId) <==> row in rows && row.runId == runId
  {
    if rows != [] {
      var front, last := rows[..|rows| - 1], rows[|rows| - 1];
      assert rows == front + [last];
      LogHasTheRows(front, runId, row);
    }
  }

  function MaxSequence(rows: seq<ToolEvent>, runId: string): int {
    if rows == [] then 0
    else
      var before, last := MaxSequence(rows[..|rows| - 1], runId), rows[|rows| - 1];
      if last.runId == runId && last.sequence > before then last.sequence else before
  }

  /** The k-th event of a run carries sequence number k. */
  ghost predicate Contiguous(log: seq<ToolEvent>) {
    forall i :: 0 <= i < |log| ==> log[i].sequence == i + 1
  }

  ghost predicate WellNumbered(rows: seq<ToolEvent>) {
    forall runId :: Contiguous(RunLog(rows, runId))
  }

  lemma {:induction false} MaxIsLength(rows: seq<ToolEvent>, runId: string)
    requires Contiguous(RunLog(rows, runId))
    ensures MaxSequence(rows, runId) == |RunLog(rows, runId)|
  {
    if rows != [] {
      var front := rows[..|rows| - 1];
      var log, shorter := RunLog(rows, runId), RunLog(front, runId);
      assert Contiguous(shorter) by {
        forall i | 0 <= i < |shorter| ensures shorter[i].sequence == i + 1 { assert log[i] == shorter[i]; }
      }
      MaxIsLength(front, runId);
      if rows[|rows| - 1].runId == runId { assert log[|log| - 1] == rows[|rows| - 1]; }
    }
  }

  datatype Emission = Emission(runId: string, kind: string, payload: string, createdAt: string)

  /** The table after one more event: numbered one past the events its run already has. */
  function Emitted(rows: seq<ToolEvent>, e: Emission): seq<ToolEvent> {
    rows + [ToolEvent(|rows| + 1, e.runId, |RunLog(rows, e.runId)| + 1, e.kind, e.payload, e.createdAt)]
  }

  /** The new row is the run's next one, with what was emitted; all earlier rows stay. */
  lemma EmittedRow(rows: seq<ToolEvent>, e: Emission)
    requires WellNumbered(rows)
    ensures |Emitted(rows, e)| == |rows| + 1 && rows <= Emitted(rows, e)
    ensures var row := Emitted(rows, e)[|rows|];
            && row.runId == e.runId && row.sequence == MaxSequence(rows, e.runId) + 1
            && row.kind == e.kind && row.payload == e.payload && row.createdAt == e.createdAt
  {
    MaxIsLength(rows, e.runId);
  }

  lemma EmittedLog(rows: seq<ToolEvent>, e: Emission, runId: string)
    ensures RunLog(Emitted(rows, e), runId)
            == RunLog(rows, runId) + if e.runId == runId then [Emitted(rows, e)[|rows|]] else []
  {
    assert Emitted(rows, e)[..|rows|] == rows;
  }

  lemma EmittedIsWellNumbered(rows: seq<ToolEvent>, e: Emission)
    requires WellNumbered(rows)
    ensures WellNumbered(Emitted(rows, e))
  {
    forall runId ensures Contiguous(RunLog(Emitted(rows, e), runId)) {
      EmittedLog(rows, e, runId);
      assert Contiguous(RunLog(rows, runId));
    }
  }

  class EventTable {
    var rows: seq<ToolEvent>

    constructor ()
      ensures rows == [] && WellNumbered(rows)
    {
      rows := [];
    }

    /** Appends the next event of a run; every run's numbering stays gap-free. */
    method Emit(runId: string, kind: string, payload: string, createdAt: string)
      requires WellNumbered(rows)
      modifies this
      ensures WellNumbered(rows)
      ensures rows == Emitted(old(rows), Emission(runId, kind, payload, createdAt))
    {
      var sequence := 0;
      var i := 0;
      while i < |rows|
        invariant 0 <= i <= |rows| && sequence == MaxSequence(rows[..i], runId)
      {
        assert rows[..i + 1][..i] == rows[..i];
        if rows[i].runId == runId && rows[i].sequence > sequence {
          sequence := rows[i].sequence;
        }
        i := i + 1;
      }
      assert rows[..i] == rows;
      MaxIsLength(rows, runId);
      var row := ToolEvent(|rows| + 1, runId, sequence + 1, kind, payload, createdAt);
      EmittedIsWellNumbered(rows, Emission(runId, kind, payload, createdAt));
      rows := rows + [row];
    }
  }

  /** The rows both reads select: this run's, beyond the cursor, in sequence order. */
  function EventsAfter(rows: seq<ToolEvent>, runId: string, after: int): seq<ToolEvent> {
    Beyond(RunLog(rows, runId), after)
  }

  function Beyond(log: seq<ToolEvent>, after: int): seq<ToolEvent> {
    if log == [] then []
    else Beyond(log[..|log| - 1], after)
         + (if log[|log| - 1].sequence > after then [log[|log| - 1]] else [])
  }

  function Drop(log: seq<ToolEvent>, after: nat): seq<ToolEvent> {
    if after <= |log| then log[after..] else []
  }

  /** Selecting by sequence number is cutting the log at the cursor. */
  lemma {:induction false} BeyondIsSuffix(log: seq<ToolEvent>, after: nat)
    requires Contiguous(log)
    ensures Beyond(log, after) == Drop(log, after)
  {
    if log != [] {
      var front := log[..|log| - 1];
      BeyondIsSuffix(front, after);
      if after <= |front| {
        assert log[after..] == front[after..] + [log[|log| - 1]];
      }
    }
  }

  // ---------------------------------------------------------------- the stream endpoint

  /** What one pass of the endpoint's loop finds. */
  datatype Poll = Poll(rows: seq<ToolEvent>, disconnected: bool, runExists: bool, stopped: bool, quiet: bool)

  ghost predicate Polls(polls: seq<Poll>, runId: string) {
    && (forall k :: 0 <= k < |polls| ==> Contiguous(RunLog(polls[k].rows, runId)))
    && (forall j, k :: 0 <= j <= k < |polls| ==> RunLog(polls[j].rows, runId) <= RunLog(polls[k].rows, runId))
  }

  /** The rows of a stream without its keep-alives. */
  lemma {:induction false} RowsConcat(a: seq<Item>, b: seq<Item>)
    ensures Rows(a + b) == Rows(a) + Rows(b)
  {
    if a == [] {
      assert a + b == b;
    } else {
      assert (a + b)[1..] == a[1..] + b;
      RowsConcat(a[1..], b);
      assert Rows(a) == SingleRows(a[0]) + Rows(a[1..]);
      Associative(SingleRows(a[0]), Rows(a[1..]), Rows(b));
    }
  }

  ghost predicate NoDamage(sent: seq<Item>) {
    forall i :: 0 <= i < |sent| ==> !sent[i].Damaged?
  }

  /** One pass: a frame per row, the cursor on the last row sent. */
  method SendRows(sent: seq<Item>, cursor: int, rows: seq<ToolEvent>) returns (now: seq<Item>, sequence: int)
    requires forall i :: 0 <= i < |rows| ==> rows[i].sequence == cursor + i + 1
    ensures Rows(now) == Rows(sent) + rows && sequence == cursor + |rows|
    ensures NoDamage(sent) ==> NoDamage(now)
  {
    now, sequence := sent, cursor;
    var i := 0;
    while i < |rows|
      invariant 0 <= i <= |rows|
      invariant Rows(now) == Rows(sent) + rows[..i]
      invariant sequence == cursor + i
      invariant NoDamage(sent) ==> NoDamage(now)
    {
      sequence := rows[i].sequence;
      RowsConcat(now, [Frame(rows[i])]);
      SingleRow(Frame(rows[i]));
      now := now + [Frame(rows[i])];
      i := i + 1;
    }
    assert rows[..i] == rows;
  }

  /** Reads beyond the cursor, sends what it read, and says whether the endpoint stays open. */
  method ServePoll(runId: string, poll: Poll, sent: seq<Item>, cursor: nat)
    returns (now: seq<Item>, sequence: nat, open: bool)
    requires Contiguous(RunLog(poll.rows, runId)) && NoDamage(sent)
    ensures Rows(now) == Rows(sent) + Drop(RunLog(poll.rows, runId), cursor)
    ensures sequence == cursor + |Drop(RunLog(poll.rows, runId), cursor)| && NoDamage(now)
    ensures open <==> !poll.stopped || Drop(RunLog(poll.rows, runId), cursor) != []
  {
    var rows := EventsAfter(poll.rows, runId, cursor);
    BeyondIsSuffix(RunLog(poll.rows, runId), cursor);
    now, sequence := SendRows(sent, cursor, rows);
    open := !(poll.stopped && rows == []);
    if open && poll.quiet {
      KeepAliveIsNoRow(now);
      now := now + [KeepAlive];
    }
  }

  lemma KeepAliveIsNoRow(sent: seq<Item>)
    ensures Rows(sent + [KeepAlive]) == Rows(sent) && (NoDamage(sent) ==> NoDamage(sent + [KeepAlive]))
  {
    RowsConcat(sent, [KeepAlive]);
    SingleRow(KeepAlive);
  }

  /** What the endpoint has sent after `served` passes: the log beyond the starting cursor. */
  ghost function Expected(polls: seq<Poll>, runId: string, start: nat, served: nat): seq<ToolEvent>
    requires served <= |polls|
  {
    if served == 0 then [] else Drop(RunLog(polls[served - 1].rows, runId), start)
  }

  /** Pass k found the run stopped and nothing beyond what earlier passes had sent. */
  ghost predicate NothingLeft(polls: seq<Poll>, runId: string, start: nat, k: nat)
    requires k < |polls|
  {
    polls[k].stopped && Expected(polls, runId, start, k + 1) == Expected(polls, runId, start, k)
  }

  /** Pass k is made: nobody has hung up, the run exists, and the pass before it left something to wait for. */
  ghost predicate PassIsMade(polls: seq<Poll>, runId: string, start: nat, k: nat)
    requires k < |polls|
  {
    !polls[k].disconnected && polls[k].runExists && (k > 0 ==> !NothingLeft(polls, runId, start, k - 1))
  }

  /** So many passes were made, and unless the endpoint is open the next one will not be. */
  ghost predicate MadePasses(polls: seq<Poll>, runId: string, start: nat, served: nat, open: bool)
    requires served <= |polls|
  {
    && (forall k :: 0 <= k < served ==> PassIsMade(polls, runId, start, k))
    && (open && served > 0 ==> !NothingLeft(polls, runId, start, served - 1))
    && (!open && served < |polls| ==> !PassIsMade(polls, runId, start, served))
  }

  lemma MakesPass(polls: seq<Poll>, runId: string, start: nat, served: nat, open: bool)
    requires served < |polls| && MadePasses(polls, runId, start, served, true)
    requires !polls[served].disconnected && polls[served].runExists
    requires open <==> !NothingLeft(polls, runId, start, served)
    ensures MadePasses(polls, runId, start, served + 1, open)
  {
  }

  /**
   The server's loop.  After `served` passes it has sent exactly the run's log beyond the
   starting cursor, in order, as it stood at the last pass; and it makes every pass until the
   client hangs up, the run is gone, or a pass finds it stopped with nothing left to send.
   */
  method StreamRunEvents(runId: string, after: nat, lastEventId: Option<nat>, polls: seq<Poll>)
    returns (sent: seq<Item>, served: nat)
    requires Polls(polls, runId)
    ensures served <= |polls| && NoDamage(sent)
    ensures var start := if lastEventId.Some? && lastEventId.value > after then lastEventId.value else after;
            && Rows(sent) == Expected(polls, runId, start, served)
            && (forall k :: 0 <= k < served ==> PassIsMade(polls, runId, start, k))
            && (served < |polls| ==> !PassIsMade(polls, runId, start, served))
  {
    var start := if lastEventId.Some? && lastEventId.value > after then lastEventId.value else after;
    var sequence, open := start, true;
    sent, served := [], 0;
    while open && served < |polls|
      invariant 0 <= served <= |polls| && NoDamage(sent)
      invariant Rows(sent) == Expected(polls, runId, start, served)
      invariant sequence == start + |Expected(polls, runId, start, served)|
      invariant MadePasses(polls, runId, start, served, open)
      decreases |polls| - served, open
    {
      var poll := polls[served];
      if poll.disconnected || !poll.runExists {
        open := false;
      } else {
        NextPass(polls, runId, served, start, sequence);
        sent, sequence, open := ServePoll(runId, poll, sent, sequence);
        MakesPass(polls, runId, start, served, open);
        served := served + 1;
      }
    }
  }

  /**
   A client that stays connected is sent the whole rest of the log, if a stopped run logs nothing
   more: also when the run had stopped before the client came.
   */
  lemma UndisturbedStreamIsComplete(polls: seq<Poll>, runId: string, start: nat, served: nat)
    requires polls != [] && served <= |polls|
    requires forall k :: 0 <= k < |polls| ==> !polls[k].disconnected && polls[k].runExists
    requires forall j, k :: 0 <= j <= k < |polls| && polls[j].stopped ==> RunLog(polls[k].rows, runId) == RunLog(polls[j].rows, runId)
    requires served < |polls| ==> !PassIsMade(polls, runId, start, served)
    ensures Expected(polls, runId, start, served) == Drop(RunLog(polls[|polls| - 1].rows, runId), start)
  {
    if served < |polls| {
      assert NothingLeft(polls, runId, start, served - 1);
      assert RunLog(polls[|polls| - 1].rows, runId) == RunLog(polls[served - 1].rows, runId);
    }
  }

  lemma SingleRow(item: Item)
    ensures Rows([item]) == SingleRows(item)
  {
    var none: seq<Item> := [];
    assert [item][1..] == none;
  }

  /** Resuming at the last sent sequence continues the same suffix of the grown log. */
  lemma NextPass(polls: seq<Poll>, runId: string, served: nat, start: nat, cursor: nat)
    requires Polls(polls, runId) && served < |polls|
    requires cursor == start + |Expected(polls, runId, start, served)|
    ensures Contiguous(RunLog(polls[served].rows, runId))
    ensures Expected(polls, runId, start, served + 1)
         == Expected(polls, runId, start, served) + Drop(RunLog(polls[served].rows, runId), cursor)
    ensures NothingLeft(polls, runId, start, served) <==> polls[served].stopped && Drop(RunLog(polls[served].rows, runId), cursor) == []
  {
    assert Contiguous(RunLog(polls[served].rows, runId));
    if served > 0 {
      assert RunLog(polls[served - 1].rows, runId) <= RunLog(polls[served].rows, runId);
      DropGrows(RunLog(polls[served - 1].rows, runId), RunLog(polls[served].rows, runId), start);
    }
  }

  lemma DropGrows(prior: seq<ToolEvent>, log: seq<ToolEvent>, start: nat)
    requires prior <= log
    ensures Drop(log, start) == Drop(prior, start) + Drop(log, start + |Drop(prior, start)|)
  {
    if start <= |prior| {
      assert log[start..] == prior[start..] + log[|prior|..];
    }
  }
}
