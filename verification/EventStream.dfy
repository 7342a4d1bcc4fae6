/**
 The incremental server-sent-events parser of the client.

 `ParseBlocks` is the text half of `parseSSE`: it normalises CR LF to LF, splits at blank lines
 and keeps the unfinished tail.  The client feeds it `rest + chunk`.  The theorems say exactly
 when the way a text is cut into chunks cannot matter, and what a server-formatted text yields.
 */
module EventStream {
  import opened Sequences
  import opened Wrappers

  datatype Parsed = Parsed(blocks: seq<string>, rest: string)

  function Normalize(s: string): string {
    if |s| < 2 then s
    else if s[0] == '\r' && s[1] == '\n' then ['\n'] + Normalize(s[2..])
    else [s[0]] + Normalize(s[1..])
  }

  predicate BlankLineAt(s: string) {
    |s| >= 2 && s[0] == '\n' && s[1] == '\n'
  }

  /** Splits at each blank line, scanning from the left; what follows the last one is the rest. */
  function SplitBlocks(s: string): Parsed {
    if |s| < 2 then Parsed([], s)
    else if BlankLineAt(s) then
      var p := SplitBlocks(s[2..]);
      Parsed([""] + p.blocks, p.rest)
    else
      Prepend(s[0], SplitBlocks(s[1..]))
  }

  function Extend(a: Parsed, b: Parsed): Parsed {
    Parsed(a.blocks + b.blocks, b.rest)
  }

  function Prepend(x: char, p: Parsed): Parsed {
    if p.blocks == [] then Parsed([], [x] + p.rest)
    else Parsed([[x] + p.blocks[0]] + p.blocks[1..], p.rest)
  }

  function ParseBlocks(buffer: string): Parsed {
    SplitBlocks(Normalize(buffer))
  }

  /** Feeding chunks one after another through `buffer = rest + chunk`. */
  function Feed(chunks: seq<string>): Parsed {
    if chunks == [] then Parsed([], "")
    else
      var before := Feed(chunks[..|chunks| - 1]);
      Extend(before, ParseBlocks(before.rest + chunks[|chunks| - 1]))
  }

  function Concat(parts: seq<string>): string {
    if parts == [] then "" else Concat(parts[..|parts| - 1]) + parts[|parts| - 1]
  }

  predicate CrLfAt(s: string, i: int) {
    0 <= i <= |s| - 2 && s[i] == '\r' && s[i + 1] == '\n'
  }

  predicate CrCrLfAt(s: string, i: int) {
    0 <= i <= |s| - 3 && s[i] == '\r' && s[i + 1] == '\r' && s[i + 2] == '\n'
  }

  ghost predicate HasCrLf(s: string) {
    exists i :: CrLfAt(s, i)
  }

  /** A doubled carriage return before a line feed, somewhere in the text. */
  ghost predicate HasCrCrLf(s: string) {
    exists i :: CrCrLfAt(s, i)
  }

  lemma InsideText(a: string, b: string)
    ensures HasCrLf(a) || HasCrLf(b) ==> HasCrLf(a + b)
    ensures HasCrCrLf(a) || HasCrCrLf(b) ==> HasCrCrLf(a + b)
  {
    forall i | CrLfAt(a, i) ensures HasCrLf(a + b) { assert CrLfAt(a + b, i); }
    forall i | CrLfAt(b, i) ensures HasCrLf(a + b) { assert CrLfAt(a + b, |a| + i); }
    forall i | CrCrLfAt(a, i) ensures HasCrCrLf(a + b) { assert CrCrLfAt(a + b, i); }
    forall i | CrCrLfAt(b, i) ensures HasCrCrLf(a + b) { assert CrCrLfAt(a + b, |a| + i); }
  }

  // ---------------------------------------------------------------- normalisation

  lemma {:induction false} NormalizeIdentity(s: string)
    requires !HasCrLf(s)
    ensures Normalize(s) == s
  {
    if |s| >= 2 {
      assert !CrLfAt(s, 0);
      InsideText(s[..1], s[1..]);
      assert s[..1] + s[1..] == s;
      NormalizeIdentity(s[1..]);
    }
  }

  /** Cutting anywhere but inside a CR LF pair commutes with normalisation. */
  lemma {:induction false} NormalizeCut(a: string, b: string)
    requires !(a != "" && b != "" && a[|a| - 1] == '\r' && b[0] == '\n')
    ensures Normalize(a + b) == Normalize(a) + Normalize(b)
  {
    if a == "" {
      assert a + b == b;
    } else if |a| == 1 {
      if b != "" { assert (a + b)[1..] == b; } else { assert a + b == a; }
    } else if a[0] == '\r' && a[1] == '\n' {
      assert (a + b)[2..] == a[2..] + b;
      NormalizeCut(a[2..], b);
      Associative("\n", Normalize(a[2..]), Normalize(b));
    } else {
      assert (a + b)[1..] == a[1..] + b;
      NormalizeCut(a[1..], b);
      Associative([a[0]], Normalize(a[1..]), Normalize(b));
    }
  }

  lemma {:induction false} NormalizeShrinks(s: string)
    ensures |Normalize(s)| <= |s|
  {
    if |s| >= 2 {
      if s[0] == '\r' && s[1] == '\n' { NormalizeShrinks(s[2..]); } else { NormalizeShrinks(s[1..]); }
    }
  }

  /** The first and last characters survive, up to a CR swallowed in front of an LF. */
  lemma {:induction false} NormalizeEnds(s: string)
    requires s != ""
    ensures Normalize(s) != ""
    ensures Normalize(s)[|Normalize(s)| - 1] == s[|s| - 1]
    ensures Normalize(s)[0] == s[0] || (|s| >= 2 && s[0] == '\r' && s[1] == '\n' && Normalize(s)[0] == '\n')
  {
    if |s| >= 2 {
      if s[0] == '\r' && s[1] == '\n' {
        if |s| > 2 { NormalizeEnds(s[2..]); }
      } else {
        NormalizeEnds(s[1..]);
      }
    }
  }

  lemma {:induction false} NormalizeRemovesCrLf(s: string)
    requires !HasCrCrLf(s)
    ensures !HasCrLf(Normalize(s))
  {
    if |s| >= 2 {
      var k := if s[0] == '\r' && s[1] == '\n' then 2 else 1;
      var t := s[k..];
      InsideText(s[..k], t);
      assert s[..k] + t == s;
      NormalizeRemovesCrLf(t);
      var n, m := Normalize(s), Normalize(t);
      if t != "" { NormalizeEnds(t); }
      assert !CrCrLfAt(s, 0);
      forall i ensures !CrLfAt(n, i) {
        assert !CrLfAt(m, i - 1);
        if i > 0 && i <= |n| - 2 { assert n[i] == m[i - 1] && n[i + 1] == m[i]; }
      }
    }
  }

  /** Normalising a prefix early does no harm when no CR CR LF is around. */
  lemma NormalizePrefixFirst(p: string, c: string)
    requires !HasCrCrLf(p + c)
    ensures Normalize(Normalize(p) + c) == Normalize(p + c)
    ensures !HasCrLf(Normalize(p))
  {
    var n := Normalize(p);
    InsideText(p, c);
    NormalizeRemovesCrLf(p);
    NormalizeIdentity(n);
    if p != "" {
      NormalizeEnds(p);
      if c != "" && p[|p| - 1] == '\r' && c[0] == '\n' {
        assert p == p[..|p| - 1] + "\r";
        SplitPairBoundary(p[..|p| - 1], c);
      } else {
        NormalizeCut(p, c);
        NormalizeCut(n, c);
      }
    }
  }

  /** The one delicate cut: the chunk boundary falls between a CR and its LF. */
  lemma SplitPairBoundary(q: string, c: string)
    requires !HasCrLf(Normalize(q + "\r"))
    ensures Normalize(Normalize(q + "\r") + c) == Normalize(q + "\r" + c)
  {
    var m, tail := Normalize(q), "\r" + c;
    NormalizeCut(q, "\r");
    InsideText(m, "\r");
    NormalizeIdentity(m);
    NormalizeCut(q, tail);
    NormalizeCut(m, tail);
    Associative(q, "\r", c);
    Associative(m, "\r", c);
  }

  // ---------------------------------------------------------------- splitting

  /** The text a list of finished blocks came from. */
  function Terminated(blocks: seq<string>): string {
    if blocks == [] then "" else blocks[0] + "\n\n" + Terminated(blocks[1..])
  }

  lemma TerminatedPrepend(x: char, blocks: seq<string>)
    requires blocks != []
    ensures Terminated([[x] + blocks[0]] + blocks[1..]) == [x] + Terminated(blocks)
  {
    var b := [[x] + blocks[0]] + blocks[1..];
    assert b[1..] == blocks[1..];
    Associative([x], blocks[0], "\n\n");
    Associative([x], blocks[0] + "\n\n", Terminated(blocks[1..]));
  }

  lemma TerminatedBlank(blocks: seq<string>)
    ensures Terminated([""] + blocks) == "\n\n" + Terminated(blocks)
  {
    assert ([""] + blocks)[1..] == blocks;
  }

  /** Splitting loses nothing: blocks and rest put back together are the text. */
  lemma {:induction false} SplitRestores(s: string)
    ensures Terminated(SplitBlocks(s).blocks) + SplitBlocks(s).rest == s
  {
    if |s| < 2 {
    } else if BlankLineAt(s) {
      var p := SplitBlocks(s[2..]);
      SplitRestores(s[2..]);
      TerminatedBlank(p.blocks);
      Associative("\n\n", Terminated(p.blocks), p.rest);
      assert s == "\n\n" + s[2..];
    } else {
      var p := SplitBlocks(s[1..]);
      SplitRestores(s[1..]);
      if p.blocks != [] {
        TerminatedPrepend(s[0], p.blocks);
        Associative([s[0]], Terminated(p.blocks), p.rest);
      }
      assert s == [s[0]] + s[1..];
    }
  }

  lemma PrependExtend(x: char, d: Parsed, b: Parsed)
    requires d.blocks != []
    ensures Prepend(x, Extend(d, b)) == Extend(Prepend(x, d), b)
  {
    assert (d.blocks + b.blocks)[1..] == d.blocks[1..] + b.blocks;
  }

  lemma NoBlocksExtend(rest: string, b: Parsed)
    ensures Extend(Parsed([], rest), b) == b
  {
    assert [] + b.blocks == b.blocks;
  }

  lemma BlankExtend(d: Parsed, b: Parsed)
    ensures Parsed([""] + Extend(d, b).blocks, b.rest) == Extend(Parsed([""] + d.blocks, d.rest), b)
  {
    assert [""] + (d.blocks + b.blocks) == ([""] + d.blocks) + b.blocks;
  }

  /** Splitting continues where the finished blocks of the prefix end. */
  ghost predicate Continues(p: string, c: string) {
    SplitBlocks(p + c) == Extend(SplitBlocks(p), SplitBlocks(SplitBlocks(p).rest + c))
  }

  lemma BlankContinues(p: string, c: string)
    requires BlankLineAt(p) && Continues(p[2..], c)
    ensures Continues(p, c)
  {
    var d := SplitBlocks(p[2..]);
    assert (p + c)[2..] == p[2..] + c && BlankLineAt(p + c);
    BlankExtend(d, SplitBlocks(d.rest + c));
  }

  lemma PrependContinues(p: string, c: string)
    requires |p| >= 2 && !BlankLineAt(p) && SplitBlocks(p[1..]).blocks != [] && Continues(p[1..], c)
    ensures Continues(p, c)
  {
    var d := SplitBlocks(p[1..]);
    assert (p + c)[1..] == p[1..] + c && !BlankLineAt(p + c) && (p + c)[0] == p[0];
    PrependExtend(p[0], d, SplitBlocks(d.rest + c));
  }

  lemma NothingContinues(p: string, c: string)
    requires SplitBlocks(p).blocks == []
    ensures Continues(p, c)
  {
    NothingSplit(p);
    NoBlocksExtend(p, SplitBlocks(p + c));
  }

  /** Splitting is incremental: the finished blocks of a prefix stand. */
  lemma {:induction false} SplitAppend(p: string, c: string)
    ensures Continues(p, c)
  {
    if SplitBlocks(p).blocks == [] {
      NothingContinues(p, c);
    } else if BlankLineAt(p) {
      SplitAppend(p[2..], c);
      BlankContinues(p, c);
    } else {
      SplitAppend(p[1..], c);
      PrependContinues(p, c);
    }
  }

  lemma NothingSplit(p: string)
    requires SplitBlocks(p).blocks == []
    ensures SplitBlocks(p).rest == p
  {
    SplitRestores(p);
    assert Terminated([]) == "";
  }

  lemma {:induction false} TerminatedEnds(blocks: seq<string>)
    requires blocks != []
    ensures var t := Terminated(blocks); |t| >= 2 && t[|t| - 1] == '\n' && t[|t| - 2] == '\n'
  {
    if |blocks| > 1 { TerminatedEnds(blocks[1..]); }
  }

  /** Finished blocks, written out again, split into themselves. */
  lemma {:induction false} TerminatedSplits(s: string)
    ensures SplitBlocks(Terminated(SplitBlocks(s).blocks)) == Parsed(SplitBlocks(s).blocks, "")
    decreases |s|
  {
    var blocks := SplitBlocks(s).blocks;
    var t := Terminated(blocks);
    if blocks != [] {
      if BlankLineAt(s) {
        var p := SplitBlocks(s[2..]);
        TerminatedSplits(s[2..]);
        TerminatedBlank(p.blocks);
        assert t[2..] == Terminated(p.blocks);
      } else {
        var p := SplitBlocks(s[1..]);
        TerminatedSplits(s[1..]);
        TerminatedPrepend(s[0], p.blocks);
        TerminatedEnds(p.blocks);
        SplitRestores(s[1..]);
        assert t[1..] == Terminated(p.blocks) && t[1] == s[1];
        assert !BlankLineAt(t);
      }
    }
  }

  // ---------------------------------------------------------------- chunk invariance

  /** The blocks already finished are a normal text that later chunks cannot touch. */
  lemma FinishedBlocksStand(n: string, c: string)
    requires !HasCrLf(n)
    ensures var a := SplitBlocks(n);
            Normalize(n + c) == Terminated(a.blocks) + Normalize(a.rest + c)
  {
    var a := SplitBlocks(n);
    var done := Terminated(a.blocks);
    SplitRestores(n);
    if a.blocks != [] { TerminatedEnds(a.blocks); }
    InsideText(done, a.rest);
    NormalizeIdentity(done);
    NormalizeCut(done, a.rest + c);
    Associative(done, a.rest, c);
  }

  /** One more chunk: parsing `rest + chunk` continues the parse of everything before. */
  lemma ParseContinues(p: string, c: string)
    requires !HasCrCrLf(p + c)
    ensures ParseBlocks(p + c) == Extend(ParseBlocks(p), ParseBlocks(ParseBlocks(p).rest + c))
  {
    var n := Normalize(p);
    var a := SplitBlocks(n);
    var x := Normalize(a.rest + c);
    NormalizePrefixFirst(p, c);
    FinishedBlocksStand(n, c);
    TerminatedSplits(n);
    SplitAppend(Terminated(a.blocks), x);
    assert "" + x == x;
  }

  /** Without CR CR LF, every way of cutting a text into chunks parses to the same blocks and rest. */
  lemma {:induction false} ChunkInvariance(chunks: seq<string>)
    requires !HasCrCrLf(Concat(chunks))
    ensures Feed(chunks) == ParseBlocks(Concat(chunks))
  {
    if chunks != [] {
      var front, last := chunks[..|chunks| - 1], chunks[|chunks| - 1];
      var p := Concat(front);
      InsideText(p, last);
      ChunkInvariance(front);
      ParseContinues(p, last);
    }
  }

  /** A doubled CR before the LF: one CR survives the first normalisation. */
  lemma NormalizeCrCrLf(q: string, c: string)
    ensures Normalize(q + "\r\r\n") == Normalize(q) + "\r\n"
    ensures Normalize(q + "\r\r\n" + c) == Normalize(q) + "\r\n" + Normalize(c)
    ensures Normalize(q + "\r\n" + c) == Normalize(q) + "\n" + Normalize(c)
  {
    assert Normalize("\r\n") == "\n" by { assert "\r\n"[2..] == ""; }
    NormalizeCut(q, "\r");
    NormalizeCut(q + "\r", "\r\n");
    assert q + "\r\r\n" == (q + "\r") + "\r\n";
    assert Normalize(q) + "\r" + "\n" == Normalize(q) + "\r\n";
    NormalizeCut(q + "\r\r\n", c);
    NormalizeCut(q, "\r\n");
    NormalizeCut(q + "\r\n", c);
  }

  /** The tail kept after a text ending in CR LF still ends in CR LF. */
  lemma TailKeepsCrLf(m: string) returns (r: string)
    ensures SplitBlocks(m + "\r\n").rest == r + "\r\n"
    ensures Terminated(SplitBlocks(m + "\r\n").blocks) + r == m
  {
    var n := m + "\r\n";
    var a := SplitBlocks(n);
    var done := Terminated(a.blocks);
    SplitRestores(n);
    if a.blocks != [] { TerminatedEnds(a.blocks); }
    assert |a.rest| >= 2 by {
      assert n[|n| - 2] == '\r';
      assert forall k :: 0 <= k < |done| ==> done[k] == n[k];
    }
    r := a.rest[..|a.rest| - 2];
    assert a.rest == n[|done|..];
    assert a.rest == r + "\r\n";
    assert done + r == n[..|n| - 2] == m;
  }

  /** With CR CR LF in the text, the cut right behind it changes the outcome. */
  lemma CrCrLfCutMatters(text: string) returns (chunks: seq<string>)
    requires HasCrCrLf(text)
    ensures Concat(chunks) == text && Feed(chunks) != ParseBlocks(text)
  {
    var i :| CrCrLfAt(text, i);
    var q, c := text[..i], text[i + 3..];
    var p := q + "\r\r\n";
    assert text == p + c;
    chunks := [p, c];
    TwoChunks(p, c);
    NormalizeCrCrLf(q, c);
    var a := ParseBlocks(p);
    var r := TailKeepsCrLf(Normalize(q));
    NormalizeCrCrLf(r, c);
    NormalizeShrinks(r);
    var b := ParseBlocks(a.rest + c);
    SplitRestores(Normalize(a.rest + c));
    SplitRestores(Normalize(text));
    TerminatedConcat(a.blocks, b.blocks);
    assert |Terminated(a.blocks)| + |r| == |Normalize(q)|;
    assert |Terminated(a.blocks + b.blocks) + b.rest| < |Normalize(text)|;
  }

  lemma TwoChunks(p: string, c: string)
    ensures Concat([p, c]) == p + c
    ensures Feed([p, c]) == Extend(ParseBlocks(p), ParseBlocks(ParseBlocks(p).rest + c))
  {
    assert [p, c][..1] == [p] && [p][..0] == [];
    assert Concat([p]) == p && "" + p == p;
    assert Feed([]) == Parsed([], "");
    assert Feed([p]) == Parsed([] + ParseBlocks(p).blocks, ParseBlocks(p).rest);
  }

  lemma {:induction false} TerminatedConcat(a: seq<string>, b: seq<string>)
    ensures Terminated(a + b) == Terminated(a) + Terminated(b)
  {
    if a == [] {
      assert a + b == b;
    } else {
      assert (a + b)[1..] == a[1..] + b;
      TerminatedConcat(a[1..], b);
    }
  }

  /** Chunk invariance holds for exactly the texts without CR CR LF. */
  lemma ChunkInvarianceIff(text: string)
    ensures !HasCrCrLf(text) <==> (forall chunks :: Concat(chunks) == text ==> Feed(chunks) == ParseBlocks(text))
  {
    if HasCrCrLf(text) {
      var chunks := CrCrLfCutMatters(text);
    } else {
      forall chunks | Concat(chunks) == text ensures Feed(chunks) == ParseBlocks(text) { ChunkInvariance(chunks); }
    }
  }
}
