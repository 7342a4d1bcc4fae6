/** Slash-separated names and the absolute paths they denote, without symbolic links. */
module Paths {

  type Path = seq<string>

  function Split(name: string): (parts: seq<string>)
    ensures |parts| >= 1
    ensures forall part <- parts :: '/' !in part
  {
    if name == "" then [""]
    else
      var rest := Split(name[1..]);
      if name[0] == '/' then [""] + rest else [[name[0]] + rest[0]] + rest[1..]
  }

  function Join(parts: seq<string>): string {
    if parts == [] then ""
    else if |parts| == 1 then parts[0]
    else parts[0] + "/" + Join(parts[1..])
  }

  /** A part that names something: not empty, not a dot or two, and free of separators. */
  predicate Proper(part: string) {
    part != "" && part != "." && part != ".." && '/' !in part
  }

  predicate AllProper(parts: seq<string>) {
    forall part <- parts :: Proper(part)
  }

  function Step(path: Path, part: string): Path {
    if part == "" || part == "." then path
    else if part == ".." then if path == [] then [] else path[..|path| - 1]
    else path + [part]
  }

  /** Where following the parts leads from a directory. */
  function Walk(path: Path, parts: seq<string>): Path
    decreases |parts|
  {
    if parts == [] then path else Walk(Step(path, parts[0]), parts[1..])
  }

  /** Joining a name onto a directory: an absolute name forgets the directory. */
  function Joined(path: Path, name: string): Path {
    Walk(if name != "" && name[0] == '/' then [] else path, Split(name))
  }

  lemma {:induction false} SplitFirst(part: string, rest: string)
    requires '/' !in part
    ensures Split(part + "/" + rest) == [part] + Split(rest)
  {
    var name := part + "/" + rest;
    if part == "" {
      assert name == "/" + rest && name[1..] == rest;
    } else {
      assert name[1..] == part[1..] + "/" + rest;
      SplitFirst(part[1..], rest);
      assert [part[0]] + part[1..] == part;
    }
  }

  lemma {:induction false} SplitSingle(part: string)
    requires '/' !in part
    ensures Split(part) == [part]
  {
    if part != "" {
      SplitSingle(part[1..]);
      assert [part[0]] + part[1..] == part;
    }
  }

  lemma {:induction false} SplitJoin(parts: seq<string>)
    requires parts != [] && forall part <- parts :: '/' !in part
    ensures Split(Join(parts)) == parts
  {
    if |parts| == 1 {
      SplitSingle(parts[0]);
    } else {
      SplitJoin(parts[1..]);
      SplitFirst(parts[0], Join(parts[1..]));
    }
  }

  lemma {:induction false} WalkProper(path: Path, parts: seq<string>)
    requires AllProper(parts)
    ensures Walk(path, parts) == path + parts
    decreases |parts|
  {
    if parts != [] {
      assert Proper(parts[0]);
      WalkProper(path + [parts[0]], parts[1..]);
      assert path + [parts[0]] + parts[1..] == path + parts;
    }
  }

  /** A relative name of proper parts denotes exactly those parts below the directory. */
  lemma JoinedProper(path: Path, parts: seq<string>)
    requires parts != [] && AllProper(parts)
    ensures Joined(path, Join(parts)) == path + parts
  {
    SplitJoin(parts);
    WalkProper(path, parts);
    assert Proper(parts[0]) && Join(parts)[0] == parts[0][0];
  }

  // ---------------------------------------------------------------- sizes

  function Weight(parts: seq<string>): nat {
    if parts == [] then 0 else |parts[0]| + 1 + Weight(parts[1..])
  }

  lemma {:induction false} WeightConcat(a: seq<string>, b: seq<string>)
    ensures Weight(a + b) == Weight(a) + Weight(b)
  {
    if a == [] {
      assert a + b == b;
    } else {
      assert (a + b)[1..] == a[1..] + b;
      WeightConcat(a[1..], b);
    }
  }

  lemma {:induction false} SplitWeight(name: string)
    ensures Weight(Split(name)) == |name| + 1
  {
    if name != "" {
      SplitWeight(name[1..]);
      var rest := Split(name[1..]);
      assert rest == [rest[0]] + rest[1..];
      assert Split(name)[1..] == if name[0] == '/' then rest else rest[1..];
    }
  }

  lemma {:induction false} JoinLength(parts: seq<string>)
    requires parts != []
    ensures Weight(parts) == |Join(parts)| + 1
  {
    if |parts| > 1 {
      JoinLength(parts[1..]);
    }
  }

  /** Walking never ends anywhere longer than what it was given. */
  lemma {:induction false} WalkWeight(path: Path, parts: seq<string>)
    ensures Weight(Walk(path, parts)) <= Weight(path) + Weight(parts)
    decreases |parts|
  {
    if parts != [] {
      StepWeight(path, parts[0]);
      WalkWeight(Step(path, parts[0]), parts[1..]);
    }
  }

  lemma StepWeight(path: Path, part: string)
    ensures Weight(Step(path, part)) <= Weight(path) + |part| + 1
  {
    if part == ".." && path != [] {
      assert path == path[..|path| - 1] + [path[|path| - 1]];
      WeightConcat(path[..|path| - 1], [path[|path| - 1]]);
    } else {
      WeightConcat(path, [part]);
      var none: seq<string> := [];
      assert [part][1..] == none;
    }
  }
}
