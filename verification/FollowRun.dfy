/**
 The client's cursor protocol over unreliable connections.

 A script of connections stands for the network: refused attempts, streams cut into arbitrary
 chunks, read errors, and back-fill requests that fail or see an older log.  Whatever the
 script, the listener receives an exact slice of the log.
 */
module FollowRun {
  import opened Wrappers
  import opened EventStream
  import opened EventFrames
  import opened EventLog

  const PAUSE_OR_TERMINAL_EVENTS: set<string> := {
    "approval.required", "question.required", "run.completed", "run.failed", "run.cancelled", "run.expired", "run.interrupted"
  }

  datatype Ending = ReadError | StatusError(fatal: bool) | StillRunning | RunStopped | Aborted

  datatype Connection = Refused(fatal: bool) | Open(chunks: seq<string>, ending: Ending)

  /** A back-fill request: it failed, or it saw the first `visible` events of the log. */
  datatype Backfill = BackfillError(fatal: bool) | Backfilled(visible: nat)

  datatype Outcome = Stopped | GaveUp | Fatal | Interrupted | Following

  /** How the handling of one chunk's records ended. */
  datatype Verdict = Continue | Paused | Gap | FetchFailed(fatal: bool)

  /** The stretch of the log between two cursors. */
  function Slice(log: seq<ToolEvent>, from: nat, to: nat): seq<ToolEvent> {
    if from <= to <= |log| then log[from..to] else []
  }

  /** A record is genuine when it is the log's own entry at its sequence number. */
  predicate Genuine(log: seq<ToolEvent>, runId: string, now: string, e: Envelope) {
    1 <= e.sequence <= |log| && ToToolEvent(runId, now, e) == log[e.sequence - 1]
  }

  ghost predicate AllGenuine(log: seq<ToolEvent>, runId: string, now: string, records: seq<Envelope>) {
    forall i :: 0 <= i < |records| ==> Genuine(log, runId, now, records[i])
  }

  ghost predicate HonestConnection(log: seq<ToolEvent>, runId: string, now: string,
                                   decode: string -> Option<Envelope>, c: Connection) {
    c.Open? ==> AllGenuine(log, runId, now, Records(Feed(c.chunks).blocks, decode))
  }

  ghost predicate Progressed(log: seq<ToolEvent>, after: nat, delivered: seq<ToolEvent>, cursor: nat) {
    && delivered == Slice(log, after, cursor)
    && after <= cursor && (cursor == after || cursor <= |log|)
  }

  // ---------------------------------------------------------------- one batch of records

  /** Delivering the entry right behind the cursor keeps the slice. */
  lemma DeliverNext(log: seq<ToolEvent>, after: nat, delivered: seq<ToolEvent>, cursor: nat)
    requires Progressed(log, after, delivered, cursor) && cursor < |log|
    ensures Progressed(log, after, delivered + [log[cursor]], cursor + 1)
  {
  }

  /** Delivers what a back-fill returned, up to but excluding the incoming record. */
  method FillGap(log: seq<ToolEvent>, missing: seq<ToolEvent>, incoming: int,
                 after: nat, delivered: seq<ToolEvent>, cursor: nat)
    returns (now: seq<ToolEvent>, sequence: nat)
    requires Contiguous(log) && Progressed(log, after, delivered, cursor)
    requires missing <= Drop(log, cursor) && cursor + 1 < incoming <= |log|
    ensures Progressed(log, after, now, sequence)
    ensures sequence == if cursor + |missing| < incoming then cursor + |missing| else incoming - 1
  {
    now, sequence := delivered, cursor;
    var i := 0;
    while i < |missing| && missing[i].sequence < incoming
      invariant 0 <= i <= |missing| && sequence == cursor + i && sequence < incoming
      invariant Progressed(log, after, now, sequence)
    {
      assert missing[i] == log[cursor + i];
      if missing[i].sequence > sequence {
        DeliverNext(log, after, now, sequence);
        sequence := missing[i].sequence;
        now := now + [missing[i]];
      }
      i := i + 1;
    }
    if i < |missing| { assert missing[i] == log[cursor + i]; }
  }

  ghost predicate Replies(log: seq<ToolEvent>, backfills: nat -> Backfill) {
    forall n :: backfills(n).Backfilled? ==> backfills(n).visible <= |log|
  }

  /** The last back-fill saw a log that ends before the entry just below the record. */
  predicate StaleBackfill(backfills: nat -> Backfill, requests: nat, incoming: int) {
    requests > 0 && backfills(requests - 1).Backfilled? && backfills(requests - 1).visible < incoming - 1
  }

  predicate LastFailed(backfills: nat -> Backfill, requests: nat, fatal: bool) {
    requests > 0 && backfills(requests - 1) == BackfillError(fatal)
  }

  ghost predicate EndsInPause(delivered: seq<ToolEvent>) {
    delivered != [] && delivered[|delivered| - 1].kind in PAUSE_OR_TERMINAL_EVENTS
  }

  /** The cursor has reached every record. */
  ghost predicate Caught(records: seq<Envelope>, cursor: nat) {
    forall i :: 0 <= i < |records| ==> records[i].sequence <= cursor
  }

  /** The last back-fill could not close the gap below one of the records. */
  ghost predicate StaleFor(records: seq<Envelope>, backfills: nat -> Backfill, requests: nat) {
    exists e :: e in records && StaleBackfill(backfills, requests, e.sequence)
  }

  /** Asks for what lies between the cursor and the record; on `Continue` the gap is closed. */
  method CloseGap(log: seq<ToolEvent>, reply: Backfill, incoming: int, after: nat, delivered: seq<ToolEvent>, cursor: nat)
    returns (now: seq<ToolEvent>, sequence: nat, verdict: Verdict)
    requires Contiguous(log) && Progressed(log, after, delivered, cursor)
    requires cursor + 1 < incoming <= |log| && (reply.Backfilled? ==> reply.visible <= |log|)
    ensures Progressed(log, after, now, sequence) && cursor <= sequence < incoming
    ensures verdict == Continue ==> incoming == sequence + 1
    ensures verdict == Gap ==> reply.Backfilled? && reply.visible < incoming - 1
    ensures verdict.FetchFailed? ==> reply == BackfillError(verdict.fatal)
    ensures verdict != Paused
  {
    now, sequence, verdict := delivered, cursor, Continue;
    if reply.BackfillError? {
      verdict := FetchFailed(reply.fatal);
      return;
    }
    var missing := Drop(log[..reply.visible], sequence);
    now, sequence := FillGap(log, missing, incoming, after, now, sequence);
    if incoming > sequence + 1 {
      verdict := Gap;
    }
  }

  /** One record; on `Continue` and `Paused` the cursor has reached it. */
  method HandleRecord(log: seq<ToolEvent>, runId: string, clock: string, envelope: Envelope,
                      backfills: nat -> Backfill, fetched: nat,
                      after: nat, delivered: seq<ToolEvent>, cursor: nat)
    returns (now: seq<ToolEvent>, sequence: nat, requests: nat, verdict: Verdict)
    requires Contiguous(log) && Progressed(log, after, delivered, cursor)
    requires Genuine(log, runId, clock, envelope) && Replies(log, backfills)
    ensures Progressed(log, after, now, sequence) && cursor <= sequence && fetched <= requests
    ensures verdict == Continue ==> envelope.sequence <= sequence
    ensures verdict == Paused ==> EndsInPause(now)
    ensures verdict == Gap ==> StaleBackfill(backfills, requests, envelope.sequence)
    ensures verdict.FetchFailed? ==> LastFailed(backfills, requests, verdict.fatal)
  {
    now, sequence, requests, verdict := delivered, cursor, fetched, Continue;
    var incoming := envelope.sequence;
    if incoming <= sequence {
      return;
    }
    if incoming > sequence + 1 {
      now, sequence, verdict := CloseGap(log, backfills(requests), incoming, after, now, sequence);
      requests := requests + 1;
      if verdict != Continue {
        return;
      }
    }
    DeliverNext(log, after, now, sequence);
    sequence := incoming;
    now := now + [ToToolEvent(runId, clock, envelope)];
    if envelope.kind in PAUSE_OR_TERMINAL_EVENTS {
      verdict := Paused;
    }
  }

  /** The `for (const envelope of parsed.records)` loop. */
  method HandleRecords(log: seq<ToolEvent>, runId: string, clock: string, records: seq<Envelope>,
                       backfills: nat -> Backfill, fetched: nat,
                       after: nat, delivered: seq<ToolEvent>, cursor: nat)
    returns (now: seq<ToolEvent>, sequence: nat, requests: nat, verdict: Verdict)
    requires Contiguous(log) && Progressed(log, after, delivered, cursor)
    requires AllGenuine(log, runId, clock, records) && Replies(log, backfills)
    ensures Progressed(log, after, now, sequence) && cursor <= sequence && fetched <= requests
    ensures verdict == Continue ==> Caught(records, sequence)
    ensures verdict == Paused ==> EndsInPause(now)
    ensures verdict == Gap ==> StaleFor(records, backfills, requests)
    ensures verdict.FetchFailed? ==> LastFailed(backfills, requests, verdict.fatal)
  {
    now, sequence, requests, verdict := delivered, cursor, fetched, Continue;
    var i := 0;
    while i < |records| && verdict == Continue
      invariant 0 <= i <= |records| && Progressed(log, after, now, sequence)
      invariant cursor <= sequence && fetched <= requests
      invariant verdict == Continue ==> forall j :: 0 <= j < i ==> records[j].sequence <= sequence
      invariant verdict == Paused ==> EndsInPause(now)
      invariant verdict == Gap ==> exists e :: e in records && StaleBackfill(backfills, requests, e.sequence)
      invariant verdict.FetchFailed? ==> LastFailed(backfills, requests, verdict.fatal)
    {
      assert records[i] in records;
      now, sequence, requests, verdict :=
        HandleRecord(log, runId, clock, records[i], backfills, requests, after, now, sequence);
      i := i + 1;
    }
  }

  // ---------------------------------------------------------------- one connection

  lemma {:induction false} FeedGrows(chunks: seq<string>, k: nat)
    requires k <= |chunks|
    ensures Feed(chunks[..k]).blocks <= Feed(chunks).blocks
    decreases |chunks|
  {
    if k == |chunks| {
      assert chunks[..k] == chunks;
    } else {
      var front := chunks[..|chunks| - 1];
      FeedGrows(front, k);
      assert front[..k] == chunks[..k];
    }
  }

  /** The blocks a chunk finishes are a stretch of the blocks of the whole connection. */
  lemma NextBlocks(chunks: seq<string>, k: nat) returns (later: seq<string>)
    requires k < |chunks|
    ensures Feed(chunks[..k + 1]) == Extend(Feed(chunks[..k]), ParseBlocks(Feed(chunks[..k]).rest + chunks[k]))
    ensures Feed(chunks).blocks
            == Feed(chunks[..k]).blocks + ParseBlocks(Feed(chunks[..k]).rest + chunks[k]).blocks + later
  {
    var part := chunks[..k + 1];
    assert part[..k] == chunks[..k] && part[k] == chunks[k];
    FeedGrows(chunks, k + 1);
    later := Feed(chunks).blocks[|Feed(part).blocks|..];
  }

  lemma MiddleGenuine(log: seq<ToolEvent>, runId: string, now: string, a: seq<Envelope>, b: seq<Envelope>, c: seq<Envelope>)
    requires AllGenuine(log, runId, now, a + b + c)
    ensures AllGenuine(log, runId, now, b)
  {
    forall i | 0 <= i < |b| ensures Genuine(log, runId, now, b[i]) {
      assert (a + b + c)[|a| + i] == b[i];
    }
  }

  /** The records of the next chunk are records of the whole connection, hence genuine. */
  lemma NextRecordsGenuine(log: seq<ToolEvent>, runId: string, now: string, decode: string -> Option<Envelope>,
                           chunks: seq<string>, k: nat)
    requires k < |chunks| && AllGenuine(log, runId, now, Records(Feed(chunks).blocks, decode))
    ensures AllGenuine(log, runId, now,
                       Records(ParseBlocks(Feed(chunks[..k]).rest + chunks[k]).blocks, decode))
  {
    var later := NextBlocks(chunks, k);
    var first, next := Feed(chunks[..k]).blocks, ParseBlocks(Feed(chunks[..k]).rest + chunks[k]).blocks;
    RecordsConcat(first, next, decode);
    RecordsConcat(first + next, later, decode);
    MiddleGenuine(log, runId, now, Records(first, decode), Records(next, decode), Records(later, decode));
  }

  lemma CaughtBoth(first: seq<Envelope>, next: seq<Envelope>, before: nat, cursor: nat)
    requires Caught(first, before) && before <= cursor && Caught(next, cursor)
    ensures Caught(first + next, cursor)
  {
  }

  lemma StaleAmong(first: seq<Envelope>, next: seq<Envelope>, later: seq<Envelope>, backfills: nat -> Backfill, requests: nat)
    requires StaleFor(next, backfills, requests)
    ensures StaleFor(first + next + later, backfills, requests)
  {
    var e :| e in next && StaleBackfill(backfills, requests, e.sequence);
    assert e in first + next + later;
  }

  /** The connection so far consists of what was read before and the next chunk. */
  lemma ReadOn(chunks: seq<string>, k: nat, decode: string -> Option<Envelope>, before: nat, cursor: nat)
    requires k < |chunks| && Caught(Records(Feed(chunks[..k]).blocks, decode), before) && before <= cursor
    requires Caught(Records(ParseBlocks(Feed(chunks[..k]).rest + chunks[k]).blocks, decode), cursor)
    ensures Caught(Records(Feed(chunks[..k + 1]).blocks, decode), cursor)
  {
    var later := NextBlocks(chunks, k);
    var first, next := Feed(chunks[..k]).blocks, ParseBlocks(Feed(chunks[..k]).rest + chunks[k]).blocks;
    RecordsConcat(first, next, decode);
    CaughtBoth(Records(first, decode), Records(next, decode), before, cursor);
  }

  lemma StaleOn(chunks: seq<string>, k: nat, decode: string -> Option<Envelope>, backfills: nat -> Backfill, requests: nat)
    requires k < |chunks| && StaleFor(Records(ParseBlocks(Feed(chunks[..k]).rest + chunks[k]).blocks, decode), backfills, requests)
    ensures StaleFor(Records(Feed(chunks).blocks, decode), backfills, requests)
  {
    var later := NextBlocks(chunks, k);
    var first, next := Feed(chunks[..k]).blocks, ParseBlocks(Feed(chunks[..k]).rest + chunks[k]).blocks;
    RecordsConcat(first, next, decode);
    RecordsConcat(first + next, later, decode);
    StaleAmong(Records(first, decode), Records(next, decode), Records(later, decode), backfills, requests);
  }

  /** One read: parses what came together with what was left over, and handles the finished records. */
  method ReadChunk(log: seq<ToolEvent>, runId: string, clock: string, decode: string -> Option<Envelope>,
                   ghost chunks: seq<string>, ghost k: nat, chunk: string, buffer: string,
                   backfills: nat -> Backfill, fetched: nat, after: nat, delivered: seq<ToolEvent>, cursor: nat)
    returns (rest: string, now: seq<ToolEvent>, sequence: nat, requests: nat, verdict: Verdict)
    requires Contiguous(log) && Progressed(log, after, delivered, cursor)
    requires AllGenuine(log, runId, clock, Records(Feed(chunks).blocks, decode)) && Replies(log, backfills)
    requires k < |chunks| && chunk == chunks[k] && buffer == Feed(chunks[..k]).rest
    ensures rest == Feed(chunks[..k + 1]).rest
    ensures Progressed(log, after, now, sequence) && cursor <= sequence && fetched <= requests
    ensures verdict == Continue ==> Caught(Records(ParseBlocks(buffer + chunk).blocks, decode), sequence)
    ensures verdict == Paused ==> EndsInPause(now)
    ensures verdict == Gap ==> StaleFor(Records(Feed(chunks).blocks, decode), backfills, requests)
    ensures verdict.FetchFailed? ==> LastFailed(backfills, requests, verdict.fatal)
  {
    NextRecordsGenuine(log, runId, clock, decode, chunks, k);
    ghost var later := NextBlocks(chunks, k);
    var parsed := ParseBlocks(buffer + chunk);
    rest := parsed.rest;
    now, sequence, requests, verdict :=
      HandleRecords(log, runId, clock, Records(parsed.blocks, decode), backfills, fetched, after, delivered, cursor);
    if verdict == Gap { StaleOn(chunks, k, decode, backfills, requests); }
  }

  /** Reads one open stream until it pauses, ends or fails; on `Continue` it has been read to its end. */
  method ReadStream(log: seq<ToolEvent>, runId: string, clock: string, decode: string -> Option<Envelope>,
                    chunks: seq<string>, backfills: nat -> Backfill, fetched: nat,
                    after: nat, delivered: seq<ToolEvent>, cursor: nat)
    returns (now: seq<ToolEvent>, sequence: nat, requests: nat, verdict: Verdict)
    requires Contiguous(log) && Progressed(log, after, delivered, cursor)
    requires AllGenuine(log, runId, clock, Records(Feed(chunks).blocks, decode)) && Replies(log, backfills)
    ensures Progressed(log, after, now, sequence) && cursor <= sequence && fetched <= requests
    ensures verdict == Continue ==> Caught(Records(Feed(chunks).blocks, decode), sequence)
    ensures verdict == Paused ==> EndsInPause(now)
    ensures verdict == Gap ==> StaleFor(Records(Feed(chunks).blocks, decode), backfills, requests)
    ensures verdict.FetchFailed? ==> LastFailed(backfills, requests, verdict.fatal)
  {
    now, sequence, requests, verdict := delivered, cursor, fetched, Continue;
    var buffer := "";
    var k := 0;
    while k < |chunks|
      invariant 0 <= k <= |chunks| && buffer == Feed(chunks[..k]).rest && fetched <= requests
      invariant verdict == Continue && Caught(Records(Feed(chunks[..k]).blocks, decode), sequence)
      invariant Progressed(log, after, now, sequence) && cursor <= sequence
    {
      ghost var before := sequence;
      buffer, now, sequence, requests, verdict :=
        ReadChunk(log, runId, clock, decode, chunks, k, chunks[k], buffer, backfills, requests, after, now, sequence);
      if verdict != Continue {
        return;
      }
      ReadOn(chunks, k, decode, before, sequence);
      k := k + 1;
    }
    assert chunks[..|chunks|] == chunks;
  }

  // ---------------------------------------------------------------- followRun

  /** The stream was read to an event that pauses or ends the run, or to its end. */
  ghost predicate ReadOut(c: Connection, decode: string -> Option<Envelope>, delivered: seq<ToolEvent>, cursor: nat) {
    c.Open? && (EndsInPause(delivered) || Caught(Records(Feed(c.chunks).blocks, decode), cursor))
  }

  /** The run was found stopped once this connection had been read out. */
  ghost predicate StoppedOn(c: Connection, decode: string -> Option<Envelope>, delivered: seq<ToolEvent>, cursor: nat) {
    c.Open? && c.ending == RunStopped && ReadOut(c, decode, delivered, cursor)
  }

  predicate IsFatal(c: Connection) {
    c == Refused(true) || (c.Open? && c.ending == StatusError(true))
  }

  /** One pass of the outer loop: connect, read, look at the run; `failed` asks for a retry. */
  method Attempt(log: seq<ToolEvent>, runId: string, clock: string, decode: string -> Option<Envelope>,
                 connection: Connection, backfills: nat -> Backfill, fetched: nat,
                 after: nat, delivered: seq<ToolEvent>, cursor: nat)
    returns (now: seq<ToolEvent>, sequence: nat, requests: nat, outcome: Outcome, failed: bool)
    requires Contiguous(log) && Progressed(log, after, delivered, cursor)
    requires HonestConnection(log, runId, clock, decode, connection) && Replies(log, backfills)
    ensures Progressed(log, after, now, sequence) && cursor <= sequence && outcome != GaveUp
    ensures outcome == Stopped ==> StoppedOn(connection, decode, now, sequence)
    ensures outcome == Interrupted ==> connection.Open? && connection.ending == Aborted
    ensures outcome == Following && !failed ==> ReadOut(connection, decode, now, sequence)
    ensures outcome == Following && connection.Refused? ==> failed
    ensures outcome == Fatal ==> IsFatal(connection) || LastFailed(backfills, requests, true)
  {
    now, sequence, requests, outcome, failed := delivered, cursor, fetched, Following, true;
    match connection {
      case Refused(fatal) =>
        outcome := if fatal then Fatal else Following;
      case Open(chunks, ending) =>
        var verdict;
        now, sequence, requests, verdict :=
          ReadStream(log, runId, clock, decode, chunks, backfills, requests, after, delivered, cursor);
        if verdict.FetchFailed? {
          outcome := if verdict.fatal then Fatal else Following;
        } else if verdict != Gap {
          match ending {
            case Aborted => outcome := Interrupted;
            case StatusError(fatal) => outcome := if fatal then Fatal else Following;
            case RunStopped => outcome := Stopped;
            case StillRunning => failed := false;
            case ReadError => failed := verdict != Paused; // a paused stream is no longer read
          }
        }
    }
  }

  /** How many attempts in a row have failed last. */
  function FailedInARow(failures: seq<bool>): (n: nat)
    ensures n <= |failures|
  {
    if failures == [] || !failures[|failures| - 1] then 0 else FailedInARow(failures[..|failures| - 1]) + 1
  }

  /** Every refused connection counts as a failure. */
  ghost predicate CountsRefusals(connections: seq<Connection>, failures: seq<bool>) {
    |failures| <= |connections| && forall k :: 0 <= k < |failures| && connections[k].Refused? ==> failures[k]
  }

  lemma OneMoreAttempt(connections: seq<Connection>, failures: seq<bool>, failed: bool)
    requires CountsRefusals(connections, failures) && |failures| < |connections|
    requires connections[|failures|].Refused? ==> failed
    ensures CountsRefusals(connections, failures + [failed])
  {
  }

  /** Counts a failure, or starts counting anew. */
  method CountRetry(failures: seq<bool>, retries: nat, failed: bool, maxRetries: Option<nat>)
    returns (all: seq<bool>, count: nat, exhausted: bool)
    requires retries == FailedInARow(failures)
    ensures all == failures + [failed] && count == FailedInARow(all)
    ensures exhausted <==> maxRetries.Some? && count > maxRetries.value
  {
    all := failures + [failed];
    assert all[..|failures|] == failures;
    count := if failed then retries + 1 else 0;
    exhausted := failed && maxRetries.Some? && count > maxRetries.value;
  }

  /**
   Follows a run across any script of connections.  The listener has received exactly the log
   entries between the starting cursor and the current one: in order, without gap or repeat.
   It ends by itself only on a stopped run whose last stream it has read out.
   */
  method Follow(log: seq<ToolEvent>, runId: string, clock: string, decode: string -> Option<Envelope>,
                after: nat, maxRetries: Option<nat>, connections: seq<Connection>, backfills: nat -> Backfill)
    returns (delivered: seq<ToolEvent>, cursor: nat, outcome: Outcome, used: nat, failures: seq<bool>)
    requires Contiguous(log) && Replies(log, backfills)
    requires forall k :: 0 <= k < |connections| ==> HonestConnection(log, runId, clock, decode, connections[k])
    ensures delivered == Slice(log, after, cursor)
    ensures after <= cursor && (cursor == after || cursor <= |log|)
    ensures used <= |connections| && (outcome == Following ==> used == |connections|)
    ensures CountsRefusals(connections, failures) && |failures| == used - (if outcome == Following || outcome == GaveUp then 0 else 1)
    ensures outcome == GaveUp <==> maxRetries.Some? && FailedInARow(failures) > maxRetries.value
    ensures outcome == Stopped ==> used > 0 && StoppedOn(connections[used - 1], decode, delivered, cursor)
  {
    delivered, cursor, outcome, used, failures := [], after, Following, 0, [];
    var retries, requests := 0, 0;
    while used < |connections|
      invariant 0 <= used == |failures| <= |connections| && CountsRefusals(connections, failures)
      invariant retries == FailedInARow(failures) && (maxRetries.Some? ==> retries <= maxRetries.value)
      invariant Progressed(log, after, delivered, cursor)
      invariant outcome == Following
    {
      var failed;
      delivered, cursor, requests, outcome, failed :=
        Attempt(log, runId, clock, decode, connections[used], backfills, requests, after, delivered, cursor);
      used := used + 1;
      if outcome != Following {
        return;
      }
      OneMoreAttempt(connections, failures, failed);
      var exhausted;
      failures, retries, exhausted := CountRetry(failures, retries, failed, maxRetries);
      if exhausted {
        outcome := GaveUp;
        return;
      }
    }
  }

  // ---------------------------------------------------------------- end to end

  /** The rows a stream carries are entries of the log, in whatever order and number. */
  ghost predicate FromLog(log: seq<ToolEvent>, items: seq<Item>) {
    forall i :: 0 <= i < |items| && items[i].Frame? ==>
      1 <= items[i].row.sequence <= |log| && items[i].row == log[items[i].row.sequence - 1]
  }

  /** Each row is the log's entry at its own number. */
  ghost predicate Entries(log: seq<ToolEvent>, rows: seq<ToolEvent>) {
    forall row <- rows :: 1 <= row.sequence <= |log| && row == log[row.sequence - 1]
  }

  lemma {:induction false} RowsFromLog(log: seq<ToolEvent>, items: seq<Item>)
    requires FromLog(log, items)
    ensures Entries(log, Rows(items))
  {
    if items != [] {
      assert FromLog(log, items[1..]);
      RowsFromLog(log, items[1..]);
    }
  }

  /** Stored rows survive the trip through an envelope: their text fields are never empty. */
  ghost predicate Stored(log: seq<ToolEvent>) {
    forall i :: 0 <= i < |log| ==> log[i].runId != "" && log[i].payload != "" && log[i].createdAt != ""
  }

  /**
   The channel assumption of `Follow` holds of every connection that carries frames of the log:
   dropped, duplicated, reordered or damaged frames, any chunking, cut off anywhere.
   */
  lemma FramesAreHonest(log: seq<ToolEvent>, runId: string, now: string, items: seq<Item>,
                        encode: ToolEvent -> string, decode: string -> Option<Envelope>, chunks: seq<string>, ending: Ending)
    requires JsonCodec(encode, decode) && forall i :: 0 <= i < |items| ==> WellFormed(items[i], decode)
    requires FromLog(log, items) && Stored(log)
    requires Concat(chunks) <= StreamText(items, encode)
    ensures HonestConnection(log, runId, now, decode, Open(chunks, ending))
  {
    PartialStream(items, encode, decode, chunks);
    EnvelopesAreHonest(log, runId, now, items, decode, chunks, ending);
  }

  lemma EnvelopesAreHonest(log: seq<ToolEvent>, runId: string, now: string, items: seq<Item>,
                           decode: string -> Option<Envelope>, chunks: seq<string>, ending: Ending)
    requires FromLog(log, items) && Stored(log) && Records(Feed(chunks).blocks, decode) <= Envelopes(Rows(items))
    ensures HonestConnection(log, runId, now, decode, Open(chunks, ending))
  {
    var rows, records := Rows(items), Records(Feed(chunks).blocks, decode);
    RowsFromLog(log, items);
    EnvelopesAreGenuine(log, runId, now, rows, records);
  }

  lemma EnvelopesAreGenuine(log: seq<ToolEvent>, runId: string, now: string, rows: seq<ToolEvent>, records: seq<Envelope>)
    requires Stored(log) && records <= Envelopes(rows) && Entries(log, rows)
    ensures AllGenuine(log, runId, now, records)
  {
    forall i | 0 <= i < |records| ensures Genuine(log, runId, now, records[i]) {
      assert rows[i] in rows;
      StoredRowIsGenuine(log, runId, now, rows[i]);
    }
  }

  lemma StoredRowIsGenuine(log: seq<ToolEvent>, runId: string, now: string, row: ToolEvent)
    requires Stored(log) && 1 <= row.sequence <= |log| && row == log[row.sequence - 1]
    ensures Genuine(log, runId, now, EnvelopeOf(row))
  {
  }
}
