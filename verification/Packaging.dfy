/**
 The canonical archive of a module tree, and what unpacking it on the runner restores.

 A tree is given by its files; an enumeration lists them in whatever order the disk does.
 */
module Packaging {
  import opened Wrappers
  import opened Paths
  import opened PathOrder
  import opened Extraction

  type Files = map<Path, Bytes>

  predicate Excluded(part: string) {
    part in {"__pycache__", ".pytest_cache", ".git"}
  }

  predicate Included(name: string, path: Path) {
    !Excluded(name) && forall part <- path :: !Excluded(part)
  }

  /** The files of a directory: proper relative paths, none running through another. */
  ghost predicate WellFormed(files: Files) {
    && (forall p <- files :: p != [] && AllProper(p))
    && (forall p <- files, q <- files :: p <= q ==> p == q)
  }

  ghost predicate Enumerates(enumeration: seq<Path>, files: Files) {
    Distinct(enumeration) && forall p :: p in enumeration <==> p in files
  }

  function Chosen(name: string, order: seq<Path>): (chosen: seq<Path>)
    ensures forall p :: p in chosen <==> p in order && Included(name, p)
  {
    if order == [] then []
    else
      var last := order[|order| - 1];
      if Included(name, last) then Chosen(name, order[..|order| - 1]) + [last]
      else Chosen(name, order[..|order| - 1])
  }

  lemma ChosenNext(name: string, order: seq<Path>, i: nat)
    requires i < |order|
    ensures Chosen(name, order[..i + 1]) == Chosen(name, order[..i]) + if Included(name, order[i]) then [order[i]] else []
  {
    assert order[..i + 1][..i] == order[..i];
  }

  function MemberOf(name: string, files: Files, path: Path): Member
    requires path in files
  {
    Member(Join([name] + path), files[path], false)
  }

  function Bundle(name: string, files: Files, chosen: seq<Path>): (bundle: seq<Member>)
    requires forall p <- chosen :: p in files
  {
    seq(|chosen|, i requires 0 <= i < |chosen| => MemberOf(name, files, chosen[i]))
  }

  method PackageModule(name: string, files: Files, enumeration: seq<Path>) returns (bundle: seq<Member>)
    requires forall p <- enumeration :: p in files
    ensures forall p <- Chosen(name, Sorted(enumeration)) :: p in files
    ensures bundle == Bundle(name, files, Chosen(name, Sorted(enumeration)))
  {
    var order := Sorted(enumeration);
    forall p | p in order ensures p in files {
      SortedElements(enumeration, p);
    }
    bundle := [];
    for i := 0 to |order|
      invariant bundle == Bundle(name, files, Chosen(name, order[..i]))
    {
      ChosenNext(name, order, i);
      assert order[i] in order;
      if Included(name, order[i]) {
        bundle := bundle + [MemberOf(name, files, order[i])];
      }
    }
    assert order[..|order|] == order;
  }

  lemma ChosenAreFiles(name: string, files: Files, enumeration: seq<Path>)
    requires Enumerates(enumeration, files)
    ensures forall p :: p in Chosen(name, Sorted(enumeration)) <==> p in files && Included(name, p)
  {
    forall p ensures p in Chosen(name, Sorted(enumeration)) <==> p in files && Included(name, p) {
      SortedElements(enumeration, p);
    }
  }

  /** The archive of a tree, as PackageModule builds it from one enumeration. */
  ghost function Package(name: string, files: Files, enumeration: seq<Path>): seq<Member>
    requires Enumerates(enumeration, files)
  {
    ChosenAreFiles(name, files, enumeration);
    Bundle(name, files, Chosen(name, Sorted(enumeration)))
  }

  lemma NameDeterminesPath(name: string, p: Path, q: Path)
    requires AllProper([name] + p) && AllProper([name] + q) && Join([name] + p) == Join([name] + q)
    ensures p == q
  {
    SplitJoin([name] + p);
    SplitJoin([name] + q);
    assert ([name] + p)[1..] == p && ([name] + q)[1..] == q;
  }

  lemma ProperBelow(name: string, files: Files, p: Path)
    requires WellFormed(files) && Proper(name) && p in files
    ensures AllProper([name] + p)
  {
  }

  /** The archive holds this file under the module's name, with its contents. */
  ghost predicate Holds(archive: seq<Member>, name: string, files: Files, p: Path)
    requires p in files
  {
    exists i :: 0 <= i < |archive| && archive[i] == Member(Join([name] + p), files[p], false)
  }

  lemma HeldIffChosen(name: string, files: Files, enumeration: seq<Path>, p: Path)
    requires Enumerates(enumeration, files) && WellFormed(files) && Proper(name) && p in files
    ensures Holds(Package(name, files, enumeration), name, files, p) <==> p in Chosen(name, Sorted(enumeration))
  {
    var chosen, archive := Chosen(name, Sorted(enumeration)), Package(name, files, enumeration);
    ChosenAreFiles(name, files, enumeration);
    if Holds(archive, name, files, p) {
      var i :| 0 <= i < |archive| && archive[i] == Member(Join([name] + p), files[p], false);
      assert chosen[i] in chosen;
      ProperBelow(name, files, p);
      ProperBelow(name, files, chosen[i]);
      NameDeterminesPath(name, p, chosen[i]);
    }
    if p in chosen {
      var i :| 0 <= i < |chosen| && chosen[i] == p;
      assert archive[i] == Member(Join([name] + p), files[p], false);
    }
  }

  /** A file is archived unless the module's name or a part of its path names a cache or the repository. */
  lemma ArchivedIff(name: string, files: Files, enumeration: seq<Path>, p: Path)
    requires Enumerates(enumeration, files) && WellFormed(files) && Proper(name) && p in files
    ensures Holds(Package(name, files, enumeration), name, files, p)
            <==> forall k :: 0 <= k < |[name] + p| ==>
                   var part := ([name] + p)[k]; part != "__pycache__" && part != ".pytest_cache" && part != ".git"
  {
    HeldIffChosen(name, files, enumeration, p);
    ChosenAreFiles(name, files, enumeration);
    assert ([name] + p)[0] == name && forall k :: 0 <= k < |p| ==> ([name] + p)[k + 1] == p[k];
    if k :| 0 <= k < |p| && Excluded(p[k]) { assert p[k] in p; }
  }

  /** The archive depends on the files alone, not on the order the disk lists them in. */
  lemma ArchiveIsCanonical(name: string, files: Files, a: seq<Path>, b: seq<Path>)
    requires Enumerates(a, files) && Enumerates(b, files)
    ensures Package(name, files, a) == Package(name, files, b)
  {
    SortedIsCanonical(a, b);
  }

  lemma {:induction false} ChosenAscending(name: string, order: seq<Path>)
    requires Ascending(order)
    ensures Ascending(Chosen(name, order))
  {
    if order != [] {
      var front, last := order[..|order| - 1], order[|order| - 1];
      ChosenAscending(name, front);
      forall p | p in Chosen(name, front) ensures Compare(p, last) < 0 {
        assert p in front;
      }
    }
  }

  // ---------------------------------------------------------------- unpacking

  lemma {:induction false} DownwardProper(parts: seq<string>)
    requires AllProper(parts)
    ensures Downward(parts) == parts
  {
    if parts != [] {
      assert Proper(parts[0]);
      DownwardProper(parts[1..]);
    }
  }

  lemma {:induction false} JoinEndsProperly(parts: seq<string>)
    requires parts != [] && AllProper(parts)
    ensures !NamesDirectory(Join(parts))
  {
    assert Proper(parts[|parts| - 1]);
    if |parts| > 1 {
      JoinEndsProperly(parts[1..]);
      JoinLength(parts[1..]);
      assert Proper(parts[1]);
    } else {
      var part := parts[0];
      assert part[|part| - 1] in part;
    }
  }

  /** A member's name leads, for the check and for the extraction alike, to its place below the destination. */
  lemma MemberName(destination: Path, parts: seq<string>)
    requires parts != [] && AllProper(parts)
    ensures Joined(destination, Join(parts)) == destination + parts
    ensures Downward(Split(Join(parts))) == parts && !NamesDirectory(Join(parts))
  {
    JoinedProper(destination, parts);
    SplitJoin(parts);
    DownwardProper(parts);
    JoinEndsProperly(parts);
  }

  /** Every member of a package passes the runner's check and is written where the check looked. */
  lemma PackagedMember(destination: Path, name: string, files: Files, p: Path)
    requires Proper(name) && p in files && AllProper(p)
    ensures Safe(destination, MemberOf(name, files, p))
    ensures ItemOf(destination, MemberOf(name, files, p)) == Item(destination + [name] + p, File(files[p]))
  {
    MemberName(destination, [name] + p);
    assert destination + ([name] + p) == destination + [name] + p;
  }

  function PackItem(root: Path, files: Files, p: Path): Item
    requires p in files
  {
    Item(root + p, File(files[p]))
  }

  lemma PackageItems(destination: Path, name: string, files: Files, enumeration: seq<Path>) returns (items: seq<Item>, chosen: seq<Path>)
    requires Proper(name) && WellFormed(files) && Enumerates(enumeration, files)
    ensures forall p :: p in chosen <==> p in files && Included(name, p)
    ensures |items| == |chosen|
    ensures forall i :: 0 <= i < |items| ==> chosen[i] in chosen && items[i] == PackItem(destination + [name], files, chosen[i])
    ensures items == Items(destination, Package(name, files, enumeration))
    ensures forall member <- Package(name, files, enumeration) :: Safe(destination, member)
    ensures Distinct(chosen)
  {
    var package := Package(name, files, enumeration);
    items := Items(destination, package);
    chosen := Chosen(name, Sorted(enumeration));
    ChosenAreFiles(name, files, enumeration);
    forall i | 0 <= i < |items|
      ensures Safe(destination, package[i])
      ensures items[i] == PackItem(destination + [name], files, chosen[i])
    {
      assert chosen[i] in chosen;
      PackagedMember(destination, name, files, chosen[i]);
    }
    SortedAscending(enumeration);
    ChosenAscending(name, Sorted(enumeration));
    forall i, j | 0 <= i < j < |chosen| ensures chosen[i] != chosen[j] {
      Total(chosen[i], chosen[j]);
    }
  }

  lemma PackItemsDisjoint(root: Path, files: Files, items: seq<Item>, chosen: seq<Path>)
    requires WellFormed(files) && Distinct(chosen) && |items| == |chosen|
    requires forall p <- chosen :: p in files
    requires forall i :: 0 <= i < |items| ==> chosen[i] in files && items[i] == PackItem(root, files, chosen[i])
    ensures Disjoint(items)
  {
    forall i, j | 0 <= i < |items| && 0 <= j < |items| && i != j ensures !(items[i].path <= items[j].path) {
      assert chosen[i] != chosen[j];
      PrefixKept(root, chosen[i], chosen[j]);
    }
  }

  lemma PrefixKept(root: Path, p: Path, q: Path)
    ensures root + p <= root + q <==> p <= q
  {
    if root + p <= root + q {
      forall k | 0 <= k < |p| ensures p[k] == q[k] {
        assert (root + p)[|root| + k] == (root + q)[|root| + k];
      }
    }
  }

  /** What the disk must show at `path` once the tree is installed below `root`. */
  ghost function Installed(disk: Disk, root: Path, name: string, files: Files, path: Path): Option<Entry> {
    if root <= path && path[|root|..] in files && Included(name, path[|root|..]) then Some(File(files[path[|root|..]]))
    else if exists q :: q in files && Included(name, q) && path <= root + q then Some(Dir)
    else Lookup(disk, path)
  }

  lemma OverlaidIsInstalled(disk: Disk, root: Path, name: string, files: Files, items: seq<Item>, chosen: seq<Path>, path: Path)
    requires |items| == |chosen| && Disjoint(items)
    requires forall p :: p in chosen <==> p in files && Included(name, p)
    requires forall i :: 0 <= i < |items| ==> chosen[i] in chosen && items[i] == PackItem(root, files, chosen[i])
    ensures Overlaid(disk, items, path) == Installed(disk, root, name, files, path)
  {
    if root <= path && path[|root|..] in files && Included(name, path[|root|..]) {
      assert path[|root|..] in chosen;
      var i :| 0 <= i < |chosen| && chosen[i] == path[|root|..];
      assert items[i].path == path;
      OverlaidIs(disk, items, path, i);
    } else {
      NoItemAt(root, files, items, chosen, path);
      DirectoryIff(root, name, files, items, chosen, path);
    }
  }

  lemma NoItemAt(root: Path, files: Files, items: seq<Item>, chosen: seq<Path>, path: Path)
    requires |items| == |chosen|
    requires forall i :: 0 <= i < |items| ==> chosen[i] in files && items[i] == PackItem(root, files, chosen[i])
    requires root <= path ==> path[|root|..] !in chosen
    ensures forall i :: 0 <= i < |items| ==> items[i].path != path
  {
    forall i | 0 <= i < |items| ensures items[i].path != path {
      assert (root + chosen[i])[|root|..] == chosen[i] && chosen[i] in chosen;
    }
  }

  lemma DirectoryIff(root: Path, name: string, files: Files, items: seq<Item>, chosen: seq<Path>, path: Path)
    requires |items| == |chosen|
    requires forall p :: p in chosen <==> p in files && Included(name, p)
    requires forall i :: 0 <= i < |items| ==> chosen[i] in chosen && items[i] == PackItem(root, files, chosen[i])
    ensures (exists i :: 0 <= i < |items| && path <= items[i].path)
            <==> exists q :: q in files && Included(name, q) && path <= root + q
  {
    if q :| q in files && Included(name, q) && path <= root + q {
      assert q in chosen;
      var i :| 0 <= i < |chosen| && chosen[i] == q;
      assert path <= items[i].path;
    }
    if i :| 0 <= i < |items| && path <= items[i].path {
      assert chosen[i] in chosen && path <= root + chosen[i];
    }
  }

  /** Does the disk have room for every file of the package? */
  ghost predicate Fits(disk: Disk, root: Path, name: string, files: Files) {
    forall p | p in files && Included(name, p) :: CanHold(disk, PackItem(root, files, p))
  }

  /**
   Unpacking a package never looks unsafe, stops exactly when a file stands where a directory
   is needed or the reverse, and otherwise installs every included file unchanged and touches
   nothing else.  A missing destination is created first, if no file is in its way.
   */
  lemma RoundTrip(disk: Disk, destination: Path, name: string, files: Files, enumeration: seq<Path>, path: Path)
    requires Proper(name) && WellFormed(files) && Enumerates(enumeration, files)
    ensures var r, root := Extract(disk, destination, Package(name, files, enumeration), name), destination + [name];
            var made := Made(disk, destination);
            && r.outcome != Unsafe
            && (r.outcome == NoDestination <==> !CanMake(disk, destination))
            && (r.outcome == Conflict <==> CanMake(disk, destination) && !Fits(made, root, name, files))
            && (CanMake(disk, destination) && Fits(made, root, name, files) ==>
                  Lookup(r.disk, path) == Installed(made, root, name, files, path))
  {
    var root, made := destination + [name], Made(disk, destination);
    var items, chosen := PackageItems(destination, name, files, enumeration);
    PackItemsDisjoint(root, files, items, chosen);
    PutAllOverlays(made, items, path);
    OverlaidIsInstalled(made, root, name, files, items, chosen, path);
    FitsIffAllHold(made, root, name, files, items, chosen);
    SafeUnpacking(disk, destination, Package(name, files, enumeration), name);
  }

  lemma FitsIffAllHold(disk: Disk, root: Path, name: string, files: Files, items: seq<Item>, chosen: seq<Path>)
    requires |items| == |chosen|
    requires forall p :: p in chosen <==> p in files && Included(name, p)
    requires forall i :: 0 <= i < |items| ==> chosen[i] in chosen && items[i] == PackItem(root, files, chosen[i])
    ensures (forall item <- items :: CanHold(disk, item)) <==> Fits(disk, root, name, files)
  {
    if forall item <- items :: CanHold(disk, item) {
      forall p | p in files && Included(name, p) ensures CanHold(disk, PackItem(root, files, p)) {
        assert p in chosen;
        var i :| 0 <= i < |chosen| && chosen[i] == p;
        assert items[i] in items;
      }
    }
  }

  /** The name the runner expects leads to the directory the package was written to. */
  lemma ExpectedRoot(destination: Path, name: string)
    requires Proper(name)
    ensures Joined(destination, name) == destination + [name]
  {
    JoinedProper(destination, [name]);
  }

  /**
   The runner accepts the package exactly when the destination can be made, the package fits
   there, and a manifest came with it or was there.
   */
  lemma AcceptedIff(disk: Disk, destination: Path, name: string, files: Files, enumeration: seq<Path>)
    requires Proper(name) && WellFormed(files) && Enumerates(enumeration, files) && Tree(disk)
    ensures var r, root := Extract(disk, destination, Package(name, files, enumeration), name), destination + [name];
            var made := Made(disk, destination);
            var manifest := Lookup(made, root + [MANIFEST]);
            r.outcome == Extracted(root) <==>
              && CanMake(disk, destination) && Fits(made, root, name, files)
              && (([MANIFEST] in files && !Excluded(name)) || (manifest.Some? && manifest.value.File?))
  {
    var root, made := destination + [name], Made(disk, destination);
    var r := Extract(disk, destination, Package(name, files, enumeration), name);
    ExpectedRoot(destination, name);
    RoundTrip(disk, destination, name, files, enumeration, root);
    RoundTrip(disk, destination, name, files, enumeration, root + [MANIFEST]);
    if CanMake(disk, destination) && Fits(made, root, name, files) {
      MadeIsTree(disk, destination, root);
      ManifestInstalled(made, root, name, files);
    }
  }

  lemma ManifestInstalled(disk: Disk, root: Path, name: string, files: Files)
    requires WellFormed(files) && Tree(disk) && Fits(disk, root, name, files)
    ensures var shown, manifest := Installed(disk, root, name, files, root + [MANIFEST]), Lookup(disk, root + [MANIFEST]);
            && (shown.Some? && shown.value.File? <==>
                  ([MANIFEST] in files && !Excluded(name)) || (manifest.Some? && manifest.value.File?))
            && (shown.Some? && shown.value.File? ==> Installed(disk, root, name, files, root) == Some(Dir))
  {
    var path := root + [MANIFEST];
    assert path[|root|..] == [MANIFEST] && path[..|root|] == root;
    var none: Path := [];
    assert root[|root|..] == none;
    if [MANIFEST] in files && !Excluded(name) {
      assert Included(name, [MANIFEST]) && root <= root + [MANIFEST];
    } else if q :| q in files && Included(name, q) && path <= root + q {
      assert PackItem(root, files, q).path[..|path|] == path;
      assert q != [MANIFEST] && root + q != path;
      assert CanHold(disk, PackItem(root, files, q));
    } else if path in disk {
      assert Lookup(disk, path[..|root|]) == Some(Dir);
    }
  }

  /** Installing where nothing was yields the filtered tree and nothing more. */
  lemma FreshInstall(disk: Disk, destination: Path, name: string, files: Files, enumeration: seq<Path>, p: Path)
    requires Proper(name) && WellFormed(files) && Enumerates(enumeration, files) && Tree(disk)
    requires CanMake(disk, destination)
    requires forall path <- disk :: !(destination + [name] <= path)
    requires [MANIFEST] in files && !Excluded(name)
    ensures var r, root := Extract(disk, destination, Package(name, files, enumeration), name), destination + [name];
            && r.outcome == Extracted(root)
            && (p in files && Included(name, p) ==> Lookup(r.disk, root + p) == Some(File(files[p])))
            && (!(p in files && Included(name, p)) ==> Lookup(r.disk, root + p) in {None, Some(Dir)})
  {
    var root, made := destination + [name], Made(disk, destination);
    NothingMadeBelow(disk, destination, name);
    forall q | q in files && Included(name, q) ensures CanHold(made, PackItem(root, files, q)) {
      RoomBelow(made, destination, name, q);
    }
    AcceptedIff(disk, destination, name, files, enumeration);
    RoundTrip(disk, destination, name, files, enumeration, root + p);
    assert (root + p)[|root|..] == p;
  }

  lemma NothingMadeBelow(disk: Disk, destination: Path, name: string)
    requires Tree(disk) && CanMake(disk, destination) && forall path <- disk :: !(destination + [name] <= path)
    ensures var made := Made(disk, destination);
            && Tree(made) && Lookup(made, destination) == Some(Dir)
            && forall path <- made :: !(destination + [name] <= path)
  {
    var made := Made(disk, destination);
    MadeIsTree(disk, destination, destination);
    forall path | path in made ensures !(destination + [name] <= path) {
      MadeIsTree(disk, destination, path);
      if path !in disk { assert Lookup(made, path).Some? && Lookup(disk, path).None?; }
    }
  }

  lemma RoomBelow(disk: Disk, destination: Path, name: string, q: Path)
    requires Tree(disk) && Lookup(disk, destination) == Some(Dir)
    requires forall path <- disk :: !(destination + [name] <= path)
    ensures destination + [name] + q !in disk
    ensures forall k :: 0 <= k < |destination + [name] + q| && (destination + [name] + q)[..k] in disk
              ==> disk[(destination + [name] + q)[..k]].Dir?
  {
    var path := destination + [name] + q;
    assert destination + [name] <= path;
    forall k | |destination| < k < |path| ensures path[..k] !in disk {
      assert destination + [name] <= path[..k];
    }
    forall k | 0 <= k <= |destination| && path[..k] in disk ensures disk[path[..k]].Dir? {
      assert path[..k] == destination[..k];
      assert destination[..|destination|] == destination;
    }
  }
}
