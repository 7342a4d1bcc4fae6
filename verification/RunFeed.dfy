/**
 From `emit` to the listener: the table, the endpoint, the wire and the client in one statement.

 Events of any runs are emitted in some order; every read of the table happens after some number
 of them.  The network loses, repeats, reorders and damages frames and cuts the text anywhere.
 */
module RunFeed {
  import opened Wrappers
  import opened EventStream
  import opened EventFrames
  import opened EventLog
  import opened FollowRun

  /** The table after a series of emissions. */
  function Table(emissions: seq<Emission>): seq<ToolEvent> {
    if emissions == [] then [] else Emitted(Table(emissions[..|emissions| - 1]), emissions[|emissions| - 1])
  }

  function LogOf(emissions: seq<Emission>, runId: string): seq<ToolEvent> {
    RunLog(Table(emissions), runId)
  }

  lemma {:induction false} TableIsWellNumbered(emissions: seq<Emission>)
    ensures WellNumbered(Table(emissions))
  {
    if emissions != [] {
      TableIsWellNumbered(emissions[..|emissions| - 1]);
      EmittedIsWellNumbered(Table(emissions[..|emissions| - 1]), emissions[|emissions| - 1]);
    }
  }

  /** A later table has every run's earlier log as a prefix. */
  lemma {:induction false} LogsGrow(emissions: seq<Emission>, j: nat, k: nat, runId: string)
    requires j <= k <= |emissions|
    ensures LogOf(emissions[..j], runId) <= LogOf(emissions[..k], runId)
  {
    if j < k {
      LogsGrow(emissions, j, k - 1, runId);
      assert emissions[..k][..k - 1] == emissions[..k - 1];
      EmittedLog(Table(emissions[..k - 1]), emissions[k - 1], runId);
    }
  }

  /** Every stored event has its text fields filled. */
  ghost predicate Filled(emissions: seq<Emission>) {
    forall e <- emissions :: e.runId != "" && e.payload != "" && e.createdAt != ""
  }

  lemma {:induction false} FilledIsStored(emissions: seq<Emission>, runId: string)
    requires Filled(emissions)
    ensures Stored(LogOf(emissions, runId))
  {
    if emissions != [] {
      var front, last := emissions[..|emissions| - 1], emissions[|emissions| - 1];
      assert last in emissions;
      FilledIsStored(front, runId);
      EmittedLog(Table(front), last, runId);
    }
  }

  // ---------------------------------------------------------------- reads of the endpoint

  /** One pass of the endpoint, after so many emissions. */
  datatype Look = Look(after: nat, disconnected: bool, runExists: bool, stopped: bool, quiet: bool)

  ghost predicate InOrder(looks: seq<Look>, n: nat) {
    && (forall i :: 0 <= i < |looks| ==> looks[i].after <= n)
    && (forall i, j :: 0 <= i <= j < |looks| ==> looks[i].after <= looks[j].after)
  }

  function PollsOf(emissions: seq<Emission>, looks: seq<Look>): seq<Poll>
    requires forall i :: 0 <= i < |looks| ==> looks[i].after <= |emissions|
  {
    seq(|looks|, i requires 0 <= i < |looks| =>
      Poll(Table(emissions[..looks[i].after]), looks[i].disconnected, looks[i].runExists, looks[i].stopped, looks[i].quiet))
  }

  /** What emissions leave behind is what the endpoint relies on. */
  lemma EmissionsGivePolls(emissions: seq<Emission>, looks: seq<Look>, runId: string)
    requires InOrder(looks, |emissions|)
    ensures Polls(PollsOf(emissions, looks), runId)
  {
    var polls := PollsOf(emissions, looks);
    forall k | 0 <= k < |polls| ensures Contiguous(RunLog(polls[k].rows, runId)) {
      TableIsWellNumbered(emissions[..looks[k].after]);
    }
    forall j, k | 0 <= j <= k < |polls| ensures RunLog(polls[j].rows, runId) <= RunLog(polls[k].rows, runId) {
      LogsGrow(emissions, looks[j].after, looks[k].after, runId);
    }
  }

  lemma {:induction false} SentRow(sent: seq<Item>, i: nat)
    requires i < |sent| && sent[i].Frame?
    ensures sent[i].row in Rows(sent)
  {
    if i > 0 { SentRow(sent[1..], i - 1); }
  }

  /** Whatever the endpoint has sent is taken from the log as it stands in the end. */
  lemma SentIsFromLog(emissions: seq<Emission>, looks: seq<Look>, runId: string, start: nat, served: nat, sent: seq<Item>)
    requires InOrder(looks, |emissions|) && served <= |looks|
    requires Rows(sent) == Expected(PollsOf(emissions, looks), runId, start, served)
    ensures FromLog(LogOf(emissions, runId), sent)
  {
    TableIsWellNumbered(emissions);
    if served == 0 {
      NothingSent(LogOf(emissions, runId), sent);
    } else {
      var n := looks[served - 1].after;
      assert emissions[..|emissions|] == emissions;
      LogsGrow(emissions, n, |emissions|, runId);
      RowsOfDrop(LogOf(emissions[..n], runId), LogOf(emissions, runId), start, sent);
    }
  }

  lemma NothingSent(log: seq<ToolEvent>, sent: seq<Item>)
    requires Rows(sent) == []
    ensures FromLog(log, sent)
  {
    forall i | 0 <= i < |sent| ensures !sent[i].Frame? {
      if sent[i].Frame? { SentRow(sent, i); }
    }
  }

  lemma RowsOfDrop(seen: seq<ToolEvent>, log: seq<ToolEvent>, start: nat, sent: seq<Item>)
    requires Contiguous(log) && seen <= log && Rows(sent) == Drop(seen, start)
    ensures FromLog(log, sent)
  {
    forall i | 0 <= i < |sent| && sent[i].Frame?
      ensures 1 <= sent[i].row.sequence <= |log| && sent[i].row == log[sent[i].row.sequence - 1]
    {
      SentRow(sent, i);
      RowOfDrop(seen, log, start, sent[i].row);
    }
  }

  lemma RowOfDrop(seen: seq<ToolEvent>, log: seq<ToolEvent>, start: nat, row: ToolEvent)
    requires Contiguous(log) && seen <= log && row in Drop(seen, start)
    ensures 1 <= row.sequence <= |log| && row == log[row.sequence - 1]
  {
    var k :| 0 <= k < |Drop(seen, start)| && Drop(seen, start)[k] == row;
    assert seen[start + k] == log[start + k];
  }

  // ---------------------------------------------------------------- the whole way

  /** One attempt to connect: turned away, or served by the endpoint and carried by the network. */
  datatype Service = TurnedAway(fatal: bool) | Served(start: nat, looks: seq<Look>, ending: Ending)

  datatype Carried = Carried(got: seq<Item>, chunks: seq<string>)

  /** Frames may get lost, repeated, reordered or damaged, but none is made up; the text is cut anywhere. */
  ghost predicate Plausible(network: (nat, seq<Item>) -> Carried, encode: ToolEvent -> string, decode: string -> Option<Envelope>) {
    forall n, sent ::
      var c := network(n, sent);
      && (forall i :: 0 <= i < |c.got| ==> WellFormed(c.got[i], decode) && (c.got[i].Frame? ==> c.got[i] in sent))
      && Concat(c.chunks) <= StreamText(c.got, encode)
  }

  lemma CarriedIsHonest(log: seq<ToolEvent>, runId: string, clock: string, sent: seq<Item>, n: nat, ending: Ending,
                        network: (nat, seq<Item>) -> Carried, encode: ToolEvent -> string, decode: string -> Option<Envelope>)
    requires JsonCodec(encode, decode) && Plausible(network, encode, decode) && FromLog(log, sent) && Stored(log)
    ensures HonestConnection(log, runId, clock, decode, Open(network(n, sent).chunks, ending))
  {
    var c := network(n, sent);
    forall i | 0 <= i < |c.got| && c.got[i].Frame?
      ensures 1 <= c.got[i].row.sequence <= |log| && c.got[i].row == log[c.got[i].row.sequence - 1]
    {
      var j :| 0 <= j < |sent| && sent[j] == c.got[i];
    }
    FramesAreHonest(log, runId, clock, c.got, encode, decode, c.chunks, ending);
  }

  /** A back-fill request: it failed, or read the table after so many emissions. */
  datatype Reading = ReadFailed(fatal: bool) | ReadAfter(n: nat)

  function BackfillOf(emissions: seq<Emission>, runId: string, reading: Reading): Backfill {
    match reading
    case ReadFailed(fatal) => BackfillError(fatal)
    case ReadAfter(n) =>
      Backfilled(|LogOf(if n <= |emissions| then emissions[..n] else emissions, runId)|)
  }

  /** What the endpoint sends on one connection, and after how many passes it leaves. */
  ghost predicate Sends(emissions: seq<Emission>, runId: string, service: Service, sent: seq<Item>, served: nat)
    requires service.Served? && InOrder(service.looks, |emissions|)
  {
    var polls := PollsOf(emissions, service.looks);
    && served <= |polls| && NoDamage(sent) && Rows(sent) == Expected(polls, runId, service.start, served)
    && (served < |polls| ==> !PassIsMade(polls, runId, service.start, served))
  }

  /** The connection carries what the endpoint sent, as far as the network lets it through. */
  ghost predicate Carries(emissions: seq<Emission>, runId: string, network: (nat, seq<Item>) -> Carried, k: nat,
                          service: Service, connection: Connection)
    requires service.Served? && InOrder(service.looks, |emissions|)
  {
    exists sent, served :: Sends(emissions, runId, service, sent, served)
                           && connection == Open(network(k, sent).chunks, service.ending)
  }

  /** The network lets through the whole text of what is sent on the k-th connection. */
  ghost predicate Intact(network: (nat, seq<Item>) -> Carried, k: nat, encode: ToolEvent -> string) {
    forall sent :: Concat(network(k, sent).chunks) == StreamText(sent, encode)
  }

  /** Nobody hangs up, the run exists, and once it is found stopped it logs nothing more. */
  ghost predicate Undisturbed(emissions: seq<Emission>, runId: string, looks: seq<Look>)
    requires InOrder(looks, |emissions|)
  {
    && looks != []
    && (forall i :: 0 <= i < |looks| ==> !looks[i].disconnected && looks[i].runExists)
    && (forall i, j :: 0 <= i <= j < |looks| && looks[i].stopped ==>
          LogOf(emissions[..looks[j].after], runId) == LogOf(emissions[..looks[i].after], runId))
  }

  /** An undisturbed endpoint has sent the rest of the log as it stood at its last look. */
  lemma UndisturbedSendsAll(emissions: seq<Emission>, runId: string, service: Service, sent: seq<Item>, served: nat)
    requires service.Served? && InOrder(service.looks, |emissions|) && Undisturbed(emissions, runId, service.looks)
    requires Sends(emissions, runId, service, sent, served)
    ensures Rows(sent) == Drop(LogOf(emissions[..service.looks[|service.looks| - 1].after], runId), service.start)
  {
    UndisturbedStreamIsComplete(PollsOf(emissions, service.looks), runId, service.start, served);
  }

  /** Who has caught up with every row of the rest of a log has caught up with the log. */
  lemma CaughtUp(log: seq<ToolEvent>, start: nat, cursor: nat)
    requires Contiguous(log) && Caught(Envelopes(Drop(log, start)), cursor)
    ensures |log| <= if start < cursor then cursor else start
  {
    if start < |log| {
      assert Envelopes(Drop(log, start))[|log| - start - 1].sequence == |log|;
    }
  }

  /** A stream that arrives whole holds the sent rows as records. */
  lemma WholeStreamIsRead(sent: seq<Item>, encode: ToolEvent -> string, decode: string -> Option<Envelope>, chunks: seq<string>)
    requires JsonCodec(encode, decode) && NoDamage(sent) && Concat(chunks) == StreamText(sent, encode)
    ensures Records(Feed(chunks).blocks, decode) == Envelopes(Rows(sent))
  {
    StreamRoundTrip(sent, encode, decode);
    ChunkInvariance(chunks);
  }

  /**
   Completeness: a client that read out an intact connection of an undisturbed endpoint has every
   event of the run as it stood at the endpoint's last look.
   */
  lemma ReadOutIsComplete(emissions: seq<Emission>, runId: string, encode: ToolEvent -> string,
                          decode: string -> Option<Envelope>, network: (nat, seq<Item>) -> Carried, k: nat,
                          service: Service, connection: Connection, cursor: nat)
    requires JsonCodec(encode, decode) && Intact(network, k, encode)
    requires service.Served? && InOrder(service.looks, |emissions|) && Undisturbed(emissions, runId, service.looks)
    requires Carries(emissions, runId, network, k, service, connection)
    requires Caught(Records(Feed(connection.chunks).blocks, decode), cursor)
    ensures |LogOf(emissions[..service.looks[|service.looks| - 1].after], runId)|
            <= if service.start < cursor then cursor else service.start
  {
    var sent, served :| Sends(emissions, runId, service, sent, served)
                        && connection == Open(network(k, sent).chunks, service.ending);
    UndisturbedSendsAll(emissions, runId, service, sent, served);
    WholeStreamIsRead(sent, encode, decode, connection.chunks);
    var n := service.looks[|service.looks| - 1].after;
    TableIsWellNumbered(emissions[..n]);
    CaughtUp(LogOf(emissions[..n], runId), service.start, cursor);
  }

  /** What the client is left with when it ends on the k-th connection because the run has stopped. */
  ghost predicate StoppedComplete(emissions: seq<Emission>, runId: string, encode: ToolEvent -> string,
                                  network: (nat, seq<Item>) -> Carried, k: nat, service: Service,
                                  delivered: seq<ToolEvent>, cursor: nat)
  {
    && service.Served? && service.ending == RunStopped && InOrder(service.looks, |emissions|)
    && (!EndsInPause(delivered) && Intact(network, k, encode) && Undisturbed(emissions, runId, service.looks) ==>
          |LogOf(emissions[..service.looks[|service.looks| - 1].after], runId)|
          <= if service.start < cursor then cursor else service.start)
  }

  /**
   Delivery refines the log: however many connections it takes and whatever happens on them, the
   listener receives exactly the events emitted for the run between its first and last cursor,
   in order, without gap or repeat.  A client that ends because the run has stopped ends on an
   event that pauses or ends the run, or has received everything an intact last connection brought.
   */
  method Deliver(emissions: seq<Emission>, runId: string, clock: string, encode: ToolEvent -> string,
                 decode: string -> Option<Envelope>, network: (nat, seq<Item>) -> Carried, services: seq<Service>,
                 readings: nat -> Reading, after: nat, maxRetries: Option<nat>)
    returns (delivered: seq<ToolEvent>, cursor: nat, outcome: Outcome, used: nat)
    requires Filled(emissions) && JsonCodec(encode, decode) && Plausible(network, encode, decode)
    requires forall k :: 0 <= k < |services| && services[k].Served? ==> InOrder(services[k].looks, |emissions|)
    ensures delivered == Slice(LogOf(emissions, runId), after, cursor)
    ensures after <= cursor && (cursor == after || cursor <= |LogOf(emissions, runId)|)
    ensures forall i :: 0 <= i < |delivered| ==> delivered[i].sequence == after + i + 1 && delivered[i].runId == runId
    ensures used <= |services| && (outcome == Following ==> used == |services|)
    ensures outcome == Stopped ==>
              used > 0 && StoppedComplete(emissions, runId, encode, network, used - 1, services[used - 1], delivered, cursor)
  {
    ghost var last;
    delivered, cursor, outcome, used, last :=
      FollowServices(emissions, runId, clock, encode, decode, network, services, readings, after, maxRetries);
    SliceIsNumbered(emissions, runId, after, cursor);
    if outcome == Stopped {
      StopIsComplete(emissions, runId, clock, encode, decode, network, used - 1, services[used - 1], last, delivered, cursor);
    }
  }

  /** The same, with the last connection used. */
  method FollowServices(emissions: seq<Emission>, runId: string, clock: string, encode: ToolEvent -> string,
                        decode: string -> Option<Envelope>, network: (nat, seq<Item>) -> Carried, services: seq<Service>,
                        readings: nat -> Reading, after: nat, maxRetries: Option<nat>)
    returns (delivered: seq<ToolEvent>, cursor: nat, outcome: Outcome, used: nat, ghost last: Connection)
    requires Filled(emissions) && JsonCodec(encode, decode) && Plausible(network, encode, decode)
    requires forall k :: 0 <= k < |services| && services[k].Served? ==> InOrder(services[k].looks, |emissions|)
    ensures delivered == Slice(LogOf(emissions, runId), after, cursor)
    ensures after <= cursor && (cursor == after || cursor <= |LogOf(emissions, runId)|)
    ensures used <= |services| && (outcome == Following ==> used == |services|)
    ensures outcome == Stopped ==>
              used > 0 && StoppedOn(last, decode, delivered, cursor)
              && Connected(emissions, runId, clock, decode, network, used - 1, services[used - 1], last)
  {
    var connections := ConnectAll(emissions, runId, clock, encode, decode, network, services);
    delivered, cursor, outcome, used := FollowAll(emissions, runId, clock, decode, connections, readings, after, maxRetries);
    last := if outcome == Stopped then connections[used - 1] else Refused(false);
  }

  lemma SliceIsNumbered(emissions: seq<Emission>, runId: string, after: nat, cursor: nat)
    ensures var slice := Slice(LogOf(emissions, runId), after, cursor);
            forall i :: 0 <= i < |slice| ==> slice[i].sequence == after + i + 1 && slice[i].runId == runId
  {
    TableIsWellNumbered(emissions);
    assert Contiguous(LogOf(emissions, runId));
    LogIsOfRun(Table(emissions), runId);
  }

  method FollowAll(emissions: seq<Emission>, runId: string, clock: string, decode: string -> Option<Envelope>,
                   connections: seq<Connection>, readings: nat -> Reading, after: nat, maxRetries: Option<nat>)
    returns (delivered: seq<ToolEvent>, cursor: nat, outcome: Outcome, used: nat)
    requires forall k :: 0 <= k < |connections| ==>
               HonestConnection(LogOf(emissions, runId), runId, clock, decode, connections[k])
    ensures delivered == Slice(LogOf(emissions, runId), after, cursor)
    ensures after <= cursor && (cursor == after || cursor <= |LogOf(emissions, runId)|)
    ensures used <= |connections| && (outcome == Following ==> used == |connections|)
    ensures outcome == Stopped ==> used > 0 && StoppedOn(connections[used - 1], decode, delivered, cursor)
  {
    var log := LogOf(emissions, runId);
    var backfills: nat -> Backfill := (n: nat) => BackfillOf(emissions, runId, readings(n));
    forall n: nat ensures backfills(n).Backfilled? ==> backfills(n).visible <= |log| {
      ReadingIsPrefix(emissions, runId, readings(n));
    }
    TableIsWellNumbered(emissions);
    var failures;
    delivered, cursor, outcome, used, failures := Follow(log, runId, clock, decode, after, maxRetries, connections, backfills);
  }

  lemma StopIsComplete(emissions: seq<Emission>, runId: string, clock: string, encode: ToolEvent -> string,
                       decode: string -> Option<Envelope>, network: (nat, seq<Item>) -> Carried, k: nat,
                       service: Service, connection: Connection, delivered: seq<ToolEvent>, cursor: nat)
    requires JsonCodec(encode, decode) && (service.Served? ==> InOrder(service.looks, |emissions|))
    requires Connected(emissions, runId, clock, decode, network, k, service, connection)
    requires StoppedOn(connection, decode, delivered, cursor)
    ensures StoppedComplete(emissions, runId, encode, network, k, service, delivered, cursor)
  {
    if !EndsInPause(delivered) && Intact(network, k, encode) && Undisturbed(emissions, runId, service.looks) {
      ReadOutIsComplete(emissions, runId, encode, decode, network, k, service, connection, cursor);
    }
  }

  /** One service attempt and what the client sees of it. */
  ghost predicate Connected(emissions: seq<Emission>, runId: string, clock: string, decode: string -> Option<Envelope>,
                            network: (nat, seq<Item>) -> Carried, k: nat, service: Service, connection: Connection)
    requires service.Served? ==> InOrder(service.looks, |emissions|)
  {
    && HonestConnection(LogOf(emissions, runId), runId, clock, decode, connection)
    && (service.TurnedAway? ==> connection == Refused(service.fatal))
    && (service.Served? ==> connection.Open? && connection.ending == service.ending
                            && Carries(emissions, runId, network, k, service, connection))
  }

  method ConnectAll(emissions: seq<Emission>, runId: string, clock: string, encode: ToolEvent -> string,
                    decode: string -> Option<Envelope>, network: (nat, seq<Item>) -> Carried, services: seq<Service>)
    returns (connections: seq<Connection>)
    requires Filled(emissions) && JsonCodec(encode, decode) && Plausible(network, encode, decode)
    requires forall k :: 0 <= k < |services| && services[k].Served? ==> InOrder(services[k].looks, |emissions|)
    ensures |connections| == |services|
    ensures forall k :: 0 <= k < |services| ==> HonestConnection(LogOf(emissions, runId), runId, clock, decode, connections[k])
    ensures forall k :: 0 <= k < |services| ==> Connected(emissions, runId, clock, decode, network, k, services[k], connections[k])
  {
    connections := [];
    for k := 0 to |services|
      invariant |connections| == k
      invariant forall j :: 0 <= j < k ==> HonestConnection(LogOf(emissions, runId), runId, clock, decode, connections[j])
      invariant forall j :: 0 <= j < k ==> Connected(emissions, runId, clock, decode, network, j, services[j], connections[j])
    {
      var connection := Connect(emissions, runId, clock, encode, decode, network, services[k], k);
      connections := connections + [connection];
    }
  }

  method Connect(emissions: seq<Emission>, runId: string, clock: string, encode: ToolEvent -> string,
                 decode: string -> Option<Envelope>, network: (nat, seq<Item>) -> Carried, service: Service, k: nat)
    returns (connection: Connection)
    requires Filled(emissions) && JsonCodec(encode, decode) && Plausible(network, encode, decode)
    requires service.Served? ==> InOrder(service.looks, |emissions|)
    ensures Connected(emissions, runId, clock, decode, network, k, service, connection)
  {
    match service
    case TurnedAway(fatal) => connection := Refused(fatal);
    case Served(start, looks, ending) =>
      EmissionsGivePolls(emissions, looks, runId);
      var sent, served := StreamRunEvents(runId, start, None, PollsOf(emissions, looks));
      assert Sends(emissions, runId, service, sent, served);
      SentIsFromLog(emissions, looks, runId, start, served, sent);
      FilledIsStored(emissions, runId);
      CarriedIsHonest(LogOf(emissions, runId), runId, clock, sent, k, ending, network, encode, decode);
      connection := Open(network(k, sent).chunks, ending);
  }

  lemma ReadingIsPrefix(emissions: seq<Emission>, runId: string, reading: Reading)
    ensures BackfillOf(emissions, runId, reading).Backfilled? ==>
              BackfillOf(emissions, runId, reading).visible <= |LogOf(emissions, runId)|
  {
    if reading.ReadAfter? && reading.n <= |emissions| {
      LogsGrow(emissions, reading.n, |emissions|, runId);
      assert emissions[..|emissions|] == emissions;
    }
  }

  lemma {:induction false} LogIsOfRun(rows: seq<ToolEvent>, runId: string)
    ensures forall i :: 0 <= i < |RunLog(rows, runId)| ==> RunLog(rows, runId)[i].runId == runId
  {
    if rows != [] { LogIsOfRun(rows[..|rows| - 1], runId); }
  }
}
