/**
 From blocks to records: what one finished block of a stream means to the client, and the
 round trip of the frames the server formats.  JSON is a pair of functions `encode`/`decode`.
 */
module EventFrames {
  import opened Wrappers
  import opened Sequences
  import opened EventStream

  /** A row of the event table, which is also what the client hands to its listener. */
  datatype ToolEvent = ToolEvent(id: int, runId: string, sequence: int, kind: string, payload: string, createdAt: string)

  /** A decoded record whose sequence is a finite number and whose type is a string. */
  datatype Envelope = Envelope(
    id: Option<int>, runId: Option<string>, sequence: int, kind: string, payload: Option<string>, createdAt: Option<string>)

  function EnvelopeOf(row: ToolEvent): Envelope {
    Envelope(Some(row.id), Some(row.runId), row.sequence, row.kind, Some(row.payload), Some(row.createdAt))
  }

  function OrElse(text: Option<string>, default: string): string {
    if text.None? || text.value == "" then default else text.value
  }

  function ToToolEvent(runId: string, now: string, e: Envelope): ToolEvent {
    ToolEvent(if e.id.Some? then e.id.value else 0, OrElse(e.runId, runId), e.sequence, e.kind,
              OrElse(e.payload, "{}"), OrElse(e.createdAt, now))
  }

  // ---------------------------------------------------------------- one block

  function SplitLines(s: string): (lines: seq<string>)
    ensures lines != []
  {
    if s == "" then [""]
    else
      var rest := SplitLines(s[1..]);
      if s[0] == '\n' then [""] + rest else [[s[0]] + rest[0]] + rest[1..]
  }

  predicate IsSpace(c: char) {
    c in {' ', '\t', '\n', '\r', '\U{000B}', '\U{000C}', '\U{00A0}', '\U{FEFF}', '\U{1680}',
          '\U{2028}', '\U{2029}', '\U{202F}', '\U{205F}', '\U{3000}'}
    || '\U{2000}' <= c <= '\U{200A}'
  }

  function TrimStart(s: string): string {
    if s != "" && IsSpace(s[0]) then TrimStart(s[1..]) else s
  }

  const DATA: string := "data:"

  function DataLines(lines: seq<string>): seq<string> {
    if lines == [] then []
    else (if DATA <= lines[0] then [TrimStart(lines[0][5..])] else []) + DataLines(lines[1..])
  }

  function JoinLines(lines: seq<string>): string {
    if lines == [] then ""
    else if |lines| == 1 then lines[0]
    else lines[0] + "\n" + JoinLines(lines[1..])
  }

  function RecordOf(block: string, decode: string -> Option<Envelope>): Option<Envelope> {
    var data := JoinLines(DataLines(SplitLines(block)));
    if data == "" then None else decode(data)
  }

  function Records(blocks: seq<string>, decode: string -> Option<Envelope>): seq<Envelope> {
    if blocks == [] then []
    else
      OneRecord(blocks[0], decode) + Records(blocks[1..], decode)
  }

  function OneRecord(block: string, decode: string -> Option<Envelope>): seq<Envelope> {
    var r := RecordOf(block, decode);
    if r.Some? then [r.value] else []
  }

  lemma {:induction false} RecordsConcat(a: seq<string>, b: seq<string>, decode: string -> Option<Envelope>)
    ensures Records(a + b, decode) == Records(a, decode) + Records(b, decode)
  {
    if a == [] {
      assert a + b == b;
    } else {
      assert (a + b)[1..] == a[1..] + b && (a + b)[0] == a[0];
      RecordsConcat(a[1..], b, decode);
      Associative(OneRecord(a[0], decode), Records(a[1..], decode), Records(b, decode));
    }
  }

  // ---------------------------------------------------------------- what a server sends

  function Decimal(n: nat): (s: string)
    ensures s != "" && forall i :: 0 <= i < |s| ==> '0' <= s[i] <= '9'
  {
    if n < 10 then [('0' as int + n) as char] else Decimal(n / 10) + [('0' as int + n % 10) as char]
  }

  /** Frames of rows, keep-alive comments, and frames whose payload was damaged on the way. */
  datatype Item = Frame(row: ToolEvent) | KeepAlive | Damaged(block: string)

  function ItemBlock(item: Item, encode: ToolEvent -> string): string {
    match item
    case Frame(row) => "id: " + Decimal(if row.sequence < 0 then 0 else row.sequence) + "\ndata: " + encode(row)
    case KeepAlive => ": keep-alive"
    case Damaged(block) => block
  }

  function ItemBlocks(items: seq<Item>, encode: ToolEvent -> string): seq<string> {
    seq(|items|, i requires 0 <= i < |items| => ItemBlock(items[i], encode))
  }

  /** What the server writes: each block followed by a blank line. */
  function StreamText(items: seq<Item>, encode: ToolEvent -> string): string {
    Terminated(ItemBlocks(items, encode))
  }

  function Rows(items: seq<Item>): seq<ToolEvent> {
    if items == [] then []
    else SingleRows(items[0]) + Rows(items[1..])
  }

  function SingleRows(item: Item): seq<ToolEvent> {
    if item.Frame? then [item.row] else []
  }

  function Envelopes(rows: seq<ToolEvent>): seq<Envelope> {
    seq(|rows|, i requires 0 <= i < |rows| => EnvelopeOf(rows[i]))
  }

  /** No blank line inside the block or where its terminator begins. */
  predicate Tidy(b: string) {
    forall i :: 0 <= i < |b| ==> !BlankLineAt((b + "\n")[i..])
  }

  ghost predicate OneLine(s: string) {
    forall i :: 0 <= i < |s| ==> s[i] != '\n' && s[i] != '\r'
  }

  /** JSON objects of rows are single-line texts in braces that decode back to their envelope. */
  ghost predicate JsonCodec(encode: ToolEvent -> string, decode: string -> Option<Envelope>) {
    forall row :: encode(row) != "" && encode(row)[0] == '{' && OneLine(encode(row))
                  && decode(encode(row)) == Some(EnvelopeOf(row))
  }

  ghost predicate WellFormed(item: Item, decode: string -> Option<Envelope>) {
    item.Damaged? ==> Tidy(item.block) && '\r' !in item.block && RecordOf(item.block, decode).None?
  }

  lemma {:induction false} LinesOf(a: string, b: string)
    requires OneLine(a)
    ensures SplitLines(a + "\n" + b) == [a] + SplitLines(b)
  {
    var s := a + "\n" + b;
    if a == "" {
      assert s[1..] == b;
    } else {
      assert s[1..] == a[1..] + "\n" + b;
      LinesOf(a[1..], b);
      assert [a[0]] + a[1..] == a;
      assert ([a[1..]] + SplitLines(b))[1..] == SplitLines(b);
    }
  }

  lemma {:induction false} SingleLine(a: string)
    requires OneLine(a)
    ensures SplitLines(a) == [a]
  {
    if a != "" {
      SingleLine(a[1..]);
      assert [a[0]] + a[1..] == a;
    }
  }

  lemma DataOfOne(line: string)
    ensures DataLines([line]) == if DATA <= line then [TrimStart(line[5..])] else []
  {
    var none: seq<string> := [];
    assert [line][1..] == none;
  }

  function FrameHead(row: ToolEvent): (s: string)
    ensures OneLine(s) && s != "" && s[0] == 'i'
  {
    "id: " + Decimal(if row.sequence < 0 then 0 else row.sequence)
  }

  lemma DataLineRecord(head: string, json: string, decode: string -> Option<Envelope>)
    requires OneLine(head) && !(DATA <= head) && OneLine(json) && json != "" && !IsSpace(json[0])
    ensures RecordOf(head + "\n" + ("data: " + json), decode) == decode(json)
  {
    var tail := "data: " + json;
    assert OneLine(tail);
    LinesOf(head, tail);
    SingleLine(tail);
    assert [head, tail][1..] == [tail];
    DataOfOne(tail);
    assert tail[5..] == " " + json && (" " + json)[1..] == json;
    assert DATA <= tail;
    assert TrimStart(" " + json) == json;
    assert DataLines([head, tail]) == [json];
  }

  /** The record of a frame is the envelope of its row. */
  lemma FrameRecord(row: ToolEvent, encode: ToolEvent -> string, decode: string -> Option<Envelope>)
    requires JsonCodec(encode, decode)
    ensures RecordOf(ItemBlock(Frame(row), encode), decode) == Some(EnvelopeOf(row))
  {
    var head := FrameHead(row);
    assert ItemBlock(Frame(row), encode) == head + "\n" + ("data: " + encode(row));
    DataLineRecord(head, encode(row), decode);
  }

  lemma KeepAliveRecord(encode: ToolEvent -> string, decode: string -> Option<Envelope>)
    ensures RecordOf(ItemBlock(KeepAlive, encode), decode) == None
  {
    SingleLine(": keep-alive");
    DataOfOne(": keep-alive");
    assert ": keep-alive"[0] != DATA[0];
  }

  lemma OneLineTidy(a: string, b: string)
    requires OneLine(a) && OneLine(b) && b != ""
    ensures Tidy(a + "\n" + b) && Tidy(a)
    ensures '\r' !in a + "\n" + b && '\r' !in a
  {
    var s := a + "\n" + b;
    forall i | 0 <= i < |s| ensures !BlankLineAt((s + "\n")[i..]) {
      if i != |a| { assert s[i] == if i < |a| then a[i] else b[i - |a| - 1]; } else { assert s[i + 1] == b[0]; }
    }
  }

  lemma FrameTidy(row: ToolEvent, encode: ToolEvent -> string, decode: string -> Option<Envelope>)
    requires JsonCodec(encode, decode)
    ensures Tidy(ItemBlock(Frame(row), encode)) && '\r' !in ItemBlock(Frame(row), encode)
  {
    DataIsOneLine(row, encode, decode);
    OneLineTidy(FrameHead(row), "data: " + encode(row));
    FrameBlock(row, encode);
  }

  lemma FrameBlock(row: ToolEvent, encode: ToolEvent -> string)
    ensures ItemBlock(Frame(row), encode) == FrameHead(row) + "\n" + ("data: " + encode(row))
  {
  }

  lemma DataIsOneLine(row: ToolEvent, encode: ToolEvent -> string, decode: string -> Option<Envelope>)
    requires JsonCodec(encode, decode)
    ensures OneLine("data: " + encode(row))
  {
    assert OneLine(encode(row));
  }

  lemma KeepAliveTidy(encode: ToolEvent -> string)
    ensures Tidy(ItemBlock(KeepAlive, encode)) && '\r' !in ItemBlock(KeepAlive, encode)
  {
    OneLineTidy(": keep-alive", "x");
  }

  lemma ItemTidy(item: Item, encode: ToolEvent -> string, decode: string -> Option<Envelope>)
    requires JsonCodec(encode, decode) && WellFormed(item, decode)
    ensures Tidy(ItemBlock(item, encode)) && '\r' !in ItemBlock(item, encode)
    ensures RecordOf(ItemBlock(item, encode), decode) == if item.Frame? then Some(EnvelopeOf(item.row)) else None
  {
    match item
    case Frame(row) =>
      assert item == Frame(row);
      FrameRecord(row, encode, decode);
      FrameTidy(row, encode, decode);
    case KeepAlive =>
      KeepAliveRecord(encode, decode);
      KeepAliveTidy(encode);
    case Damaged(block) =>
      assert ItemBlock(item, encode) == block;
  }

  lemma {:induction false} TidyBlockSplits(b: string, t: string)
    requires Tidy(b)
    ensures SplitBlocks(b + "\n\n" + t) == Parsed([b] + SplitBlocks(t).blocks, SplitBlocks(t).rest)
  {
    var s := b + "\n\n" + t;
    if b == "" {
      assert s[2..] == t && BlankLineAt(s);
    } else {
      assert (b + "\n")[0..] == b + "\n";
      assert !BlankLineAt(b + "\n") && s[0] == (b + "\n")[0] && s[1] == (b + "\n")[1];
      assert Tidy(b[1..]) by {
        forall i | 0 <= i < |b[1..]| ensures !BlankLineAt((b[1..] + "\n")[i..]) {
          assert (b[1..] + "\n")[i..] == (b + "\n")[i + 1..];
        }
      }
      assert s[1..] == b[1..] + "\n\n" + t;
      TidyBlockSplits(b[1..], t);
      assert [b[0]] + b[1..] == b;
      assert ([b[1..]] + SplitBlocks(t).blocks)[1..] == SplitBlocks(t).blocks;
    }
  }

  lemma {:induction false} TidyBlocksSplit(blocks: seq<string>)
    requires forall i :: 0 <= i < |blocks| ==> Tidy(blocks[i]) && '\r' !in blocks[i]
    ensures SplitBlocks(Terminated(blocks)) == Parsed(blocks, "")
    ensures '\r' !in Terminated(blocks)
  {
    if blocks != [] {
      TidyBlocksSplit(blocks[1..]);
      TidyBlockSplits(blocks[0], Terminated(blocks[1..]));
    }
  }

  lemma {:induction false} ItemRecords(items: seq<Item>, encode: ToolEvent -> string, decode: string -> Option<Envelope>)
    requires JsonCodec(encode, decode) && forall i :: 0 <= i < |items| ==> WellFormed(items[i], decode)
    ensures Records(ItemBlocks(items, encode), decode) == Envelopes(Rows(items))
  {
    if items != [] {
      ItemTidy(items[0], encode, decode);
      assert ItemBlocks(items, encode)[1..] == ItemBlocks(items[1..], encode);
      ItemRecords(items[1..], encode, decode);
      EnvelopesConcat(SingleRows(items[0]), Rows(items[1..]));
      OneItem(items[0], encode, decode);
    }
  }

  lemma EnvelopesConcat(a: seq<ToolEvent>, b: seq<ToolEvent>)
    ensures Envelopes(a + b) == Envelopes(a) + Envelopes(b)
  {
  }

  lemma OneItem(item: Item, encode: ToolEvent -> string, decode: string -> Option<Envelope>)
    requires RecordOf(ItemBlock(item, encode), decode) == if item.Frame? then Some(EnvelopeOf(item.row)) else None
    ensures OneRecord(ItemBlock(item, encode), decode) == Envelopes(SingleRows(item))
  {
  }

  lemma NoCarriageReturn(s: string)
    requires '\r' !in s
    ensures !HasCrLf(s) && !HasCrCrLf(s)
  {
    assert forall i :: 0 <= i < |s| ==> s[i] in s;
  }

  /** Parsing everything the server wrote gives back the envelopes of its rows, and no tail. */
  lemma StreamRoundTrip(items: seq<Item>, encode: ToolEvent -> string, decode: string -> Option<Envelope>)
    requires JsonCodec(encode, decode) && forall i :: 0 <= i < |items| ==> WellFormed(items[i], decode)
    ensures '\r' !in StreamText(items, encode)
    ensures Records(ParseBlocks(StreamText(items, encode)).blocks, decode) == Envelopes(Rows(items))
    ensures ParseBlocks(StreamText(items, encode)).rest == ""
  {
    var blocks := ItemBlocks(items, encode);
    forall i | 0 <= i < |blocks| ensures Tidy(blocks[i]) && '\r' !in blocks[i] {
      ItemTidy(items[i], encode, decode);
    }
    TidyBlocksSplit(blocks);
    NoCarriageReturn(Terminated(blocks));
    NormalizeIdentity(Terminated(blocks));
    ItemRecords(items, encode, decode);
  }

  /** Blocks parsed from a prefix of a plain text are a prefix of all its blocks. */
  lemma SeenBlocks(text: string, seen: string) returns (later: seq<string>)
    requires seen <= text && '\r' !in text
    ensures ParseBlocks(text).blocks == ParseBlocks(seen).blocks + later
    ensures !HasCrCrLf(seen)
  {
    var unseen := text[|seen|..];
    assert text == seen + unseen;
    NoCarriageReturn(text);
    InsideText(seen, unseen);
    ParseContinues(seen, unseen);
    later := ParseBlocks(ParseBlocks(seen).rest + unseen).blocks;
  }

  /**
   However a connection chops up what the server wrote and wherever it breaks off, the records
   the client has parsed so far are a prefix of the envelopes of the rows that were sent.
   */
  lemma PartialStream(items: seq<Item>, encode: ToolEvent -> string, decode: string -> Option<Envelope>,
                      chunks: seq<string>)
    requires JsonCodec(encode, decode) && forall i :: 0 <= i < |items| ==> WellFormed(items[i], decode)
    requires Concat(chunks) <= StreamText(items, encode)
    ensures Records(Feed(chunks).blocks, decode) <= Envelopes(Rows(items))
  {
    var text, seen := StreamText(items, encode), Concat(chunks);
    StreamRoundTrip(items, encode, decode);
    var later := SeenBlocks(text, seen);
    ChunkInvariance(chunks);
    RecordsConcat(ParseBlocks(seen).blocks, later, decode);
  }
}
