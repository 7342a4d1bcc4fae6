/** How a workspace turns a tool's path argument into a path of its own. */
module WorkspacePath {
  import Text
  import opened Paths

  datatype Resolution = Outside | Missing | Resolved(path: Path)

  predicate Prefixed(s: string) {
    "/" <= s || "./" <= s
  }

  /** The name without its leading slashes and "./" prefixes, in whatever order they come. */
  function Unprefixed(s: string): (clean: string)
    ensures !Prefixed(clean)
    ensures |clean| <= |s|
  {
    if "/" <= s then Unprefixed(s[1..])
    else if "./" <= s then Unprefixed(s[2..])
    else s
  }

  function Unslashed(s: string): (clean: string)
    ensures |clean| <= |s| && (s != "" && s[0] == '/' ==> |clean| < |s|)
  {
    if s != "" && s[0] == '/' then Unslashed(s[1..]) else s
  }

  lemma {:induction false} UnslashedIsPrefix(s: string)
    ensures Unprefixed(Unslashed(s)) == Unprefixed(s)
  {
    if s != "" && s[0] == '/' {
      UnslashedIsPrefix(s[1..]);
    }
  }

  /** Below the root or refused; a missing file is an error only if it must exist. */
  function Verdict(root: Path, candidate: Path, mustExist: bool, present: bool): Resolution {
    if !(root <= candidate) then Outside
    else if mustExist && !present then Missing
    else Resolved(candidate)
  }

  class Workspace {
    const root: Path

    constructor (root: Path)
      ensures this.root == root
    {
      this.root := root;
    }

    method Resolve(relative: string, mustExist: bool, present: Path -> bool) returns (r: Resolution)
      ensures var candidate := Walk(root, Split(Unprefixed(Text.Strip(relative))));
              && r == Verdict(root, candidate, mustExist, present(candidate))
              && (r == Outside <==> !(root <= candidate))
              && (r == Missing <==> root <= candidate && mustExist && !present(candidate))
              && (r.Resolved? ==> r.path == candidate)
    {
      var clean := Text.Strip(relative);
      while "/" <= clean || "./" <= clean
        invariant Unprefixed(clean) == Unprefixed(Text.Strip(relative))
        decreases |clean|
      {
        if "/" <= clean {
          UnslashedIsPrefix(clean);
          clean := Unslashed(clean);
        }
        if "./" <= clean {
          clean := clean[2..];
        }
      }
      var candidate := Joined(root, clean);
      if !(root <= candidate) {
        return Outside;
      }
      if mustExist && !present(candidate) {
        return Missing;
      }
      r := Resolved(candidate);
    }
  }

  function Resolve(root: Path, relative: string): Resolution {
    Verdict(root, Walk(root, Split(Unprefixed(Text.Strip(relative)))), false, true)
  }

  // ---------------------------------------------------------------- meaning

  /** Dropping the prefixes does not change what the parts lead to: "/" only never escapes. */
  lemma {:induction false} PrefixesMeanNothing(root: Path, s: string)
    ensures Walk(root, Split(Unprefixed(s))) == Walk(root, Split(s))
  {
    if "/" <= s {
      SplitFirst("", s[1..]);
      assert s == "" + "/" + s[1..];
      assert ([""] + Split(s[1..]))[1..] == Split(s[1..]);
      PrefixesMeanNothing(root, s[1..]);
    } else if "./" <= s {
      SplitFirst(".", s[2..]);
      assert s == "." + "/" + s[2..];
      assert (["."] + Split(s[2..]))[1..] == Split(s[2..]);
      PrefixesMeanNothing(root, s[2..]);
    }
  }

  /** Resolution accepts exactly the names whose parts lead from the root to somewhere below it. */
  lemma AcceptsIffBelow(root: Path, relative: string)
    ensures Resolve(root, relative).Resolved? <==> root <= Walk(root, Split(Text.Strip(relative)))
    ensures Resolve(root, relative).Resolved? ==> Resolve(root, relative).path == Walk(root, Split(Text.Strip(relative)))
  {
    PrefixesMeanNothing(root, Text.Strip(relative));
  }

  predicate NoOuterSpace(s: string) {
    s != "" ==> !Text.IsSpace(s[0]) && !Text.IsSpace(s[|s| - 1])
  }

  lemma StripShortens(s: string)
    ensures Text.Strip(s) == s || |Text.Strip(s)| < |s|
    ensures NoOuterSpace(s) <==> Text.Strip(s) == s
  {
    if NoOuterSpace(s) {
      Text.StripFixed(s);
    }
  }

  /**
   The relative form of an accepted path resolves to that path again exactly when it has no
   outer white space: a file whose name begins or ends with a blank cannot be reached by it.
   */
  lemma ReResolves(root: Path, rel: seq<string>)
    requires AllProper(rel)
    ensures Resolve(root, Join(rel)) == Resolved(root + rel) <==> NoOuterSpace(Join(rel))
  {
    var name := Join(rel);
    StripShortens(name);
    ResolvesTo(root, name, root + rel);
    FullNameArrives(root, rel);
    if Text.Strip(name) != name {
      ShorterNameFallsShort(root, rel, Text.Strip(name));
    }
  }

  lemma ResolvesTo(root: Path, relative: string, target: Path)
    requires root <= target
    ensures Resolve(root, relative) == Resolved(target) <==> Walk(root, Split(Text.Strip(relative))) == target
  {
    AcceptsIffBelow(root, relative);
  }

  lemma FullNameArrives(root: Path, rel: seq<string>)
    requires AllProper(rel)
    ensures Walk(root, Split(Join(rel))) == root + rel
  {
    if rel == [] {
      assert Split("") == [""];
    } else {
      SplitJoin(rel);
      WalkProper(root, rel);
    }
  }

  /** No name shorter than the relative form leads to its path. */
  lemma ShorterNameFallsShort(root: Path, rel: seq<string>, clean: string)
    requires rel != [] && |clean| < |Join(rel)|
    ensures Walk(root, Split(clean)) != root + rel
  {
    SplitWeight(clean);
    JoinLength(rel);
    WalkWeight(root, Split(clean));
    WeightConcat(root, rel);
  }
}
