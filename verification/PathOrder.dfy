/** The order in which paths sort: part by part, each part character by character. */
module PathOrder {
  import opened Paths

  function CompareText(a: string, b: string): int {
    if a == "" then if b == "" then 0 else -1
    else if b == "" then 1
    else if a[0] < b[0] then -1
    else if a[0] > b[0] then 1
    else CompareText(a[1..], b[1..])
  }

  function Compare(a: Path, b: Path): int {
    if a == [] then if b == [] then 0 else -1
    else if b == [] then 1
    else
      var first := CompareText(a[0], b[0]);
      if first != 0 then first else Compare(a[1..], b[1..])
  }

  lemma {:induction false} TextTotal(a: string, b: string)
    ensures CompareText(a, b) == 0 <==> a == b
    ensures CompareText(a, b) < 0 <==> CompareText(b, a) > 0
  {
    if a != "" && b != "" {
      TextTotal(a[1..], b[1..]);
      assert a == [a[0]] + a[1..] && b == [b[0]] + b[1..];
    }
  }

  lemma {:induction false} TextTransitive(a: string, b: string, c: string)
    requires CompareText(a, b) < 0 && CompareText(b, c) < 0
    ensures CompareText(a, c) < 0
  {
    if a != "" && b != "" && c != "" && a[0] == b[0] == c[0] {
      TextTransitive(a[1..], b[1..], c[1..]);
    }
  }

  lemma {:induction false} Total(a: Path, b: Path)
    ensures Compare(a, b) == 0 <==> a == b
    ensures Compare(a, b) < 0 <==> Compare(b, a) > 0
  {
    if a != [] && b != [] {
      TextTotal(a[0], b[0]);
      TextTotal(b[0], a[0]);
      Total(a[1..], b[1..]);
      assert a == [a[0]] + a[1..] && b == [b[0]] + b[1..];
    }
  }

  lemma {:induction false} Transitive(a: Path, b: Path, c: Path)
    requires Compare(a, b) < 0 && Compare(b, c) < 0
    ensures Compare(a, c) < 0
  {
    if a != [] && b != [] && c != [] {
      TextTotal(a[0], b[0]);
      TextTotal(b[0], c[0]);
      if a[0] == b[0] == c[0] {
        Transitive(a[1..], b[1..], c[1..]);
      } else if a[0] != b[0] && b[0] != c[0] {
        TextTransitive(a[0], b[0], c[0]);
      }
    }
  }

  /** Up to position k the texts agree; there the first one ends or has the smaller character. */
  predicate PartsAt(a: string, b: string, k: int) {
    0 <= k <= |a| && k < |b| && a[..k] == b[..k] && (k == |a| || a[k] < b[k])
  }

  /** Character by character: the smaller text is a proper prefix, or smaller where they first differ. */
  lemma {:induction false} TextOrder(a: string, b: string)
    ensures CompareText(a, b) < 0 <==> exists k :: PartsAt(a, b, k)
  {
    forall k | PartsAt(a, b, k) && k > 0 ensures a[0] == b[0] { assert a[0] == a[..k][0] && b[0] == b[..k][0]; }
    if b == "" {
    } else if a == "" {
      assert PartsAt(a, b, 0);
    } else if a[0] != b[0] {
      if a[0] < b[0] { assert PartsAt(a, b, 0); }
    } else {
      TextOrder(a[1..], b[1..]);
      if k :| PartsAt(a[1..], b[1..], k) {
        assert a[..k + 1] == [a[0]] + a[1..][..k] && b[..k + 1] == [b[0]] + b[1..][..k];
        assert PartsAt(a, b, k + 1);
      }
      if k :| PartsAt(a, b, k) {
        assert k > 0 && a[1..][..k - 1] == a[..k][1..] && b[1..][..k - 1] == b[..k][1..];
        assert PartsAt(a[1..], b[1..], k - 1);
      }
    }
  }

  /** Up to position k the paths agree; there the first one ends or has the smaller part. */
  predicate BranchAt(a: Path, b: Path, k: int) {
    0 <= k <= |a| && k < |b| && a[..k] == b[..k] && (k == |a| || CompareText(a[k], b[k]) < 0)
  }

  /** Part by part in the same way: a directory sorts before what it contains, and all of that before its next sibling. */
  lemma {:induction false} PathsOrder(a: Path, b: Path)
    ensures Compare(a, b) < 0 <==> exists k :: BranchAt(a, b, k)
  {
    forall k | BranchAt(a, b, k) && k > 0 ensures a[0] == b[0] { assert a[0] == a[..k][0] && b[0] == b[..k][0]; }
    if b == [] {
    } else if a == [] {
      assert BranchAt(a, b, 0);
    } else {
      TextTotal(a[0], b[0]);
      if a[0] != b[0] {
        if CompareText(a[0], b[0]) < 0 { assert BranchAt(a, b, 0); }
      } else {
        SamePart(a, b);
        PathsOrder(a[1..], b[1..]);
      }
    }
  }

  lemma SamePart(a: Path, b: Path)
    requires a != [] && b != [] && a[0] == b[0]
    ensures (exists k :: BranchAt(a, b, k)) <==> exists k :: BranchAt(a[1..], b[1..], k)
  {
    TextTotal(a[0], b[0]);
    if k :| BranchAt(a[1..], b[1..], k) {
      assert a[..k + 1] == [a[0]] + a[1..][..k] && b[..k + 1] == [b[0]] + b[1..][..k];
      assert BranchAt(a, b, k + 1);
    }
    if k :| BranchAt(a, b, k) {
      assert k > 0 && a[1..][..k - 1] == a[..k][1..] && b[1..][..k - 1] == b[..k][1..];
      assert BranchAt(a[1..], b[1..], k - 1);
    }
  }

  ghost predicate Ascending(paths: seq<Path>) {
    forall i, j :: 0 <= i < j < |paths| ==> Compare(paths[i], paths[j]) < 0
  }

  function Insert(path: Path, paths: seq<Path>): (r: seq<Path>)
    ensures |r| == |paths| + 1
  {
    if paths == [] || Compare(path, paths[0]) < 0 then [path] + paths
    else [paths[0]] + Insert(path, paths[1..])
  }

  function Sorted(paths: seq<Path>): (r: seq<Path>)
    ensures |r| == |paths|
  {
    if paths == [] then [] else Insert(paths[0], Sorted(paths[1..]))
  }

  lemma {:induction false} InsertElements(path: Path, paths: seq<Path>, x: Path)
    ensures x in Insert(path, paths) <==> x == path || x in paths
  {
    if paths != [] && Compare(path, paths[0]) >= 0 {
      InsertElements(path, paths[1..], x);
      assert x in paths <==> x == paths[0] || x in paths[1..];
    }
  }

  lemma {:induction false} InsertAscending(path: Path, paths: seq<Path>)
    requires Ascending(paths) && path !in paths
    ensures Ascending(Insert(path, paths))
  {
    if paths == [] {
    } else if Compare(path, paths[0]) < 0 {
      forall j | 1 <= j < |paths| ensures Compare(path, paths[j]) < 0 {
        Transitive(path, paths[0], paths[j]);
      }
    } else {
      Total(path, paths[0]);
      Total(paths[0], path);
      InsertAscending(path, paths[1..]);
      var rest := Insert(path, paths[1..]);
      forall k | 0 <= k < |rest| ensures Compare(paths[0], rest[k]) < 0 {
        InsertElements(path, paths[1..], rest[k]);
      }
    }
  }

  ghost predicate Distinct(paths: seq<Path>) {
    forall i, j :: 0 <= i < j < |paths| ==> paths[i] != paths[j]
  }

  lemma {:induction false} SortedElements(paths: seq<Path>, x: Path)
    ensures x in Sorted(paths) <==> x in paths
  {
    if paths != [] {
      SortedElements(paths[1..], x);
      InsertElements(paths[0], Sorted(paths[1..]), x);
      assert x in paths <==> x == paths[0] || x in paths[1..];
    }
  }

  lemma {:induction false} SortedAscending(paths: seq<Path>)
    requires Distinct(paths)
    ensures Ascending(Sorted(paths))
  {
    if paths != [] {
      SortedAscending(paths[1..]);
      SortedElements(paths[1..], paths[0]);
      InsertAscending(paths[0], Sorted(paths[1..]));
    }
  }

  lemma HeadIsLeast(a: seq<Path>, x: Path)
    requires Ascending(a) && x in a
    ensures x == a[0] || Compare(a[0], x) < 0
  {
  }

  lemma SameEmptiness(a: seq<Path>, b: seq<Path>)
    requires forall x :: x in a <==> x in b
    ensures a == [] <==> b == []
  {
    if a != [] {
      assert a[0] in a;
    }
    if b != [] {
      assert b[0] in b;
    }
  }

  /** There is only one way to list a set of paths in order. */
  lemma {:induction false} AscendingIsUnique(a: seq<Path>, b: seq<Path>)
    requires Ascending(a) && Ascending(b)
    requires forall x :: x in a <==> x in b
    ensures a == b
  {
    SameEmptiness(a, b);
    if a != [] {
      assert a[0] in b && b[0] in a;
      HeadIsLeast(a, b[0]);
      HeadIsLeast(b, a[0]);
      Total(a[0], b[0]);
      forall x ensures x in a[1..] <==> x in b[1..] {
        TailElements(a, x);
        TailElements(b, x);
      }
      AscendingIsUnique(a[1..], b[1..]);
      assert a == [a[0]] + a[1..] && b == [b[0]] + b[1..];
    }
  }

  lemma TailElements(a: seq<Path>, x: Path)
    requires Ascending(a) && a != []
    ensures x in a[1..] <==> x in a && x != a[0]
  {
    Total(a[0], a[0]);
    assert x in a <==> x == a[0] || x in a[1..];
    forall k | 1 <= k < |a| ensures a[k] != a[0] {
      assert Compare(a[0], a[k]) < 0;
    }
  }

  /** Two listings of the same distinct paths sort alike. */
  lemma SortedIsCanonical(a: seq<Path>, b: seq<Path>)
    requires Distinct(a) && Distinct(b)
    requires forall x :: x in a <==> x in b
    ensures Sorted(a) == Sorted(b)
  {
    SortedAscending(a);
    SortedAscending(b);
    forall x ensures x in Sorted(a) <==> x in Sorted(b) {
      SortedElements(a, x);
      SortedElements(b, x);
    }
    AscendingIsUnique(Sorted(a), Sorted(b));
  }
}
