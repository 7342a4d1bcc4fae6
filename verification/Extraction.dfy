/**
 Unpacking an archive into a directory tree.

 The tree maps absolute paths to files and directories.  A member that runs into a file where
 it needs a directory, or the reverse, stops the extraction and leaves what was written so far.
 */
module Extraction {
  import opened Wrappers
  import opened Paths

  type Bytes = seq<bv8>

  datatype Entry = Dir | File(data: Bytes)

  type Disk = map<Path, Entry>

  datatype Member = Member(name: string, data: Bytes, symlink: bool)

  datatype Item = Item(path: Path, entry: Entry)

  const MANIFEST := "__manifest__.py"

  function Lookup(disk: Disk, path: Path): Option<Entry> {
    if path in disk then Some(disk[path]) else None
  }

  /** Every ancestor of an entry is a directory. */
  ghost predicate Tree(disk: Disk) {
    forall path, k :: path in disk && 0 <= k < |path| ==> Lookup(disk, path[..k]) == Some(Dir)
  }

  predicate CanHold(disk: Disk, item: Item) {
    && (forall k :: 0 <= k < |item.path| && item.path[..k] in disk ==> disk[item.path[..k]].Dir?)
    && (item.path in disk ==> (disk[item.path].Dir? <==> item.entry.Dir?))
  }

  function Put(disk: Disk, item: Item): Disk {
    map p | p in disk.Keys + (set k | 0 <= k <= |item.path| :: item.path[..k]) ::
      if p == item.path then item.entry else if p <= item.path then Dir else disk[p]
  }

  lemma PutLookup(disk: Disk, item: Item, p: Path)
    ensures Lookup(Put(disk, item), p) ==
            if p == item.path then Some(item.entry) else if p <= item.path then Some(Dir) else Lookup(disk, p)
  {
    if p <= item.path {
      assert item.path[..|p|] == p;
    }
  }

  datatype Unpacked = Unpacked(disk: Disk, complete: bool)

  function PutAll(disk: Disk, items: seq<Item>): Unpacked
    decreases |items|
  {
    if items == [] then Unpacked(disk, true)
    else if CanHold(disk, items[0]) then PutAll(Put(disk, items[0]), items[1..])
    else Unpacked(disk, false)
  }

  /** Extraction drops the parts that would lead anywhere but down. */
  function Downward(parts: seq<string>): seq<string> {
    if parts == [] then []
    else if parts[0] in {"", ".", ".."} then Downward(parts[1..])
    else [parts[0]] + Downward(parts[1..])
  }

  predicate NamesDirectory(name: string) {
    name != "" && name[|name| - 1] == '/'
  }

  function ItemOf(destination: Path, member: Member): Item {
    Item(destination + Downward(Split(member.name)), if NamesDirectory(member.name) then Dir else File(member.data))
  }

  function Items(destination: Path, archive: seq<Member>): (items: seq<Item>)
    ensures |items| == |archive|
    ensures forall i :: 0 <= i < |items| ==> items[i] == ItemOf(destination, archive[i])
  {
    if archive == [] then [] else [ItemOf(destination, archive[0])] + Items(destination, archive[1..])
  }

  predicate Safe(destination: Path, member: Member) {
    && destination <= Joined(destination, member.name)
    && (NamesDirectory(member.name) || !member.symlink)
  }

  datatype Outcome = NoDestination | Unsafe | Conflict | NoManifest | Extracted(root: Path)

  predicate HasModule(disk: Disk, root: Path) {
    Lookup(disk, root) == Some(Dir) && root + [MANIFEST] in disk && disk[root + [MANIFEST]].File?
  }

  datatype Result = Result(disk: Disk, outcome: Outcome)

  /** A missing destination is created with its parents, unless a file is in the way. */
  predicate CanMake(disk: Disk, destination: Path) {
    CanHold(disk, Item(destination, Dir))
  }

  function Made(disk: Disk, destination: Path): Disk {
    Put(disk, Item(destination, Dir))
  }

  function Extract(disk: Disk, destination: Path, archive: seq<Member>, expected: string): Result {
    var root := Joined(destination, expected);
    if !CanMake(disk, destination) then Result(disk, NoDestination)
    else if exists member <- archive :: !Safe(destination, member) then Result(Made(disk, destination), Unsafe)
    else
      var unpacked := PutAll(Made(disk, destination), Items(destination, archive));
      Result(unpacked.disk,
             if !unpacked.complete then Conflict
             else if !HasModule(unpacked.disk, root) then NoManifest
             else Extracted(root))
  }

  class Filesystem {
    var disk: Disk

    constructor (disk: Disk)
      ensures this.disk == disk
    {
      this.disk := disk;
    }

    method SafeExtract(archive: seq<Member>, destination: Path, expected: string) returns (outcome: Outcome)
      modifies this
      ensures Result(disk, outcome) == Extract(old(disk), destination, archive, expected)
    {
      if !CanMake(disk, destination) {
        return NoDestination;
      }
      disk := Made(disk, destination);
      var root := Joined(destination, expected);
      var i := 0;
      while i < |archive|
        invariant 0 <= i <= |archive|
        invariant forall k :: 0 <= k < i ==> Safe(destination, archive[k])
        invariant disk == Made(old(disk), destination)
      {
        if !Safe(destination, archive[i]) {
          assert archive[i] in archive;
          return Unsafe;
        }
        i := i + 1;
      }
      var items := Items(destination, archive);
      i := 0;
      while i < |items|
        invariant 0 <= i <= |items|
        invariant PutAll(Made(old(disk), destination), items) == PutAll(disk, items[i..])
      {
        assert items[i..][1..] == items[i + 1..];
        if !CanHold(disk, items[i]) {
          return Conflict;
        }
        disk := Put(disk, items[i]);
        i := i + 1;
      }
      outcome := if HasModule(disk, root) then Extracted(root) else NoManifest;
    }
  }

  // ---------------------------------------------------------------- containment

  lemma PutKeepsTree(disk: Disk, item: Item)
    requires Tree(disk) && CanHold(disk, item)
    ensures Tree(Put(disk, item))
  {
    var next := Put(disk, item);
    forall path, k | path in next && 0 <= k < |path| ensures Lookup(next, path[..k]) == Some(Dir) {
      PutLookup(disk, item, path);
      PutLookup(disk, item, path[..k]);
      if path <= item.path {
        assert path[..k] == item.path[..k];
      } else if path[..k] == item.path {
        assert Lookup(disk, path[..k]) == Some(Dir);
      }
    }
  }

  /** A tree is still a tree, and outside the destination nothing has changed. */
  lemma {:induction false} PutAllStaysInside(disk: Disk, destination: Path, items: seq<Item>, p: Path)
    requires Tree(disk) && Lookup(disk, destination) == Some(Dir)
    requires forall item <- items :: destination <= item.path
    ensures Tree(PutAll(disk, items).disk) && Lookup(PutAll(disk, items).disk, destination) == Some(Dir)
    ensures !(destination <= p) ==> Lookup(PutAll(disk, items).disk, p) == Lookup(disk, p)
    decreases |items|
  {
    if items != [] && CanHold(disk, items[0]) {
      assert items[0] in items;
      var next := Put(disk, items[0]);
      PutKeepsTree(disk, items[0]);
      PutLookup(disk, items[0], destination);
      PutLookup(disk, items[0], p);
      if !(destination <= p) && p <= items[0].path {
        assert items[0].path[..|destination|] == destination;
        assert p == items[0].path[..|p|] && |p| < |destination|;
        assert p == destination[..|p|];
      }
      PutAllStaysInside(next, destination, items[1..], p);
    }
  }

  /** Creating the destination adds the directories on the way that were missing, and nothing else. */
  lemma MadeIsTree(disk: Disk, destination: Path, p: Path)
    requires Tree(disk) && CanMake(disk, destination)
    ensures Tree(Made(disk, destination)) && Lookup(Made(disk, destination), destination) == Some(Dir)
    ensures Lookup(Made(disk, destination), p) == Lookup(disk, p)
            || (p <= destination && Lookup(disk, p) == None && Lookup(Made(disk, destination), p) == Some(Dir))
  {
    PutKeepsTree(disk, Item(destination, Dir));
    PutLookup(disk, Item(destination, Dir), destination);
    PutLookup(disk, Item(destination, Dir), p);
    if p <= destination {
      assert destination[..|p|] == p;
      assert destination[..|destination|] == destination;
    }
  }

  /**
   Whatever the archive and however the extraction ends, it only writes below the destination,
   apart from creating the destination itself.
   */
  lemma ExtractsInside(disk: Disk, destination: Path, archive: seq<Member>, expected: string, p: Path)
    requires Tree(disk)
    ensures var r := Extract(disk, destination, archive, expected);
            && Tree(r.disk)
            && (r.outcome == NoDestination <==> !CanMake(disk, destination))
            && (r.outcome == NoDestination ==> r.disk == disk)
            && (r.outcome != NoDestination ==> Lookup(r.disk, destination) == Some(Dir))
            && (!(destination <= p) ==>
                  || Lookup(r.disk, p) == Lookup(disk, p)
                  || (p <= destination && Lookup(disk, p) == None && Lookup(r.disk, p) == Some(Dir)))
  {
    if CanMake(disk, destination) {
      MadeIsTree(disk, destination, p);
      PutAllStaysInside(Made(disk, destination), destination, Items(destination, archive), p);
    }
  }

  // ---------------------------------------------------------------- archives without overlaps

  ghost predicate Disjoint(items: seq<Item>) {
    forall i, j :: 0 <= i < |items| && 0 <= j < |items| && i != j ==> !(items[i].path <= items[j].path)
  }

  lemma PutKeepsRoom(disk: Disk, a: Item, b: Item)
    requires CanHold(disk, a) && !(a.path <= b.path) && !(b.path <= a.path)
    ensures CanHold(Put(disk, a), b) <==> CanHold(disk, b)
  {
    var next := Put(disk, a);
    PutLookup(disk, a, b.path);
    forall k | 0 <= k < |b.path|
      ensures (b.path[..k] in next ==> next[b.path[..k]].Dir?) <==> (b.path[..k] in disk ==> disk[b.path[..k]].Dir?)
    {
      PutLookup(disk, a, b.path[..k]);
      if b.path[..k] <= a.path {
        assert b.path[..k] == a.path[..k];
      }
    }
  }

  /** What the disk shows at p once all the items are in place. */
  ghost function Overlaid(disk: Disk, items: seq<Item>, p: Path): Option<Entry> {
    if exists i :: 0 <= i < |items| && items[i].path == p
    then var i :| 0 <= i < |items| && items[i].path == p; Some(items[i].entry)
    else if exists i :: 0 <= i < |items| && p <= items[i].path then Some(Dir)
    else Lookup(disk, p)
  }

  lemma {:induction false} PutAllOverlays(disk: Disk, items: seq<Item>, p: Path)
    requires Disjoint(items)
    ensures PutAll(disk, items).complete <==> forall item <- items :: CanHold(disk, item)
    ensures PutAll(disk, items).complete ==> Lookup(PutAll(disk, items).disk, p) == Overlaid(disk, items, p)
    decreases |items|
  {
    if items != [] {
      if CanHold(disk, items[0]) {
        var next := Put(disk, items[0]);
        RoomForRest(disk, items);
        PutAllOverlays(next, items[1..], p);
        PutLookup(disk, items[0], p);
        OverlaidStep(disk, items, p);
      } else {
        assert items[0] in items;
      }
    }
  }

  lemma RoomForRest(disk: Disk, items: seq<Item>)
    requires items != [] && Disjoint(items) && CanHold(disk, items[0])
    ensures Disjoint(items[1..])
    ensures (forall item <- items[1..] :: CanHold(Put(disk, items[0]), item)) <==> forall item <- items :: CanHold(disk, item)
  {
    forall item | item in items[1..] ensures CanHold(Put(disk, items[0]), item) <==> CanHold(disk, item) {
      var k :| 1 <= k < |items| && items[k] == item;
      PutKeepsRoom(disk, items[0], item);
    }
    assert forall item :: item in items <==> item == items[0] || item in items[1..];
  }

  lemma OverlaidStep(disk: Disk, items: seq<Item>, p: Path)
    requires items != [] && Disjoint(items)
    ensures Overlaid(Put(disk, items[0]), items[1..], p) == Overlaid(disk, items, p)
  {
    var rest := items[1..];
    PutLookup(disk, items[0], p);
    RestIsDisjoint(items);
    if i :| 0 <= i < |rest| && rest[i].path == p {
      OverlaidIs(Put(disk, items[0]), rest, p, i);
      OverlaidIs(disk, items, p, i + 1);
    } else if items[0].path == p {
      OverlaidIs(disk, items, p, 0);
      NothingAbove(items, p);
      OverlaidElse(Put(disk, items[0]), rest, p);
    } else {
      assert forall j :: 0 <= j < |items| ==> items[j].path != p;
      OverlaidElse(disk, items, p);
      OverlaidElse(Put(disk, items[0]), rest, p);
      AboveIff(items, p);
    }
  }

  lemma RestIsDisjoint(items: seq<Item>)
    requires items != [] && Disjoint(items)
    ensures Disjoint(items[1..]) && forall j :: 1 <= j < |items| ==> items[j] == items[1..][j - 1]
  {
  }

  lemma OverlaidElse(disk: Disk, items: seq<Item>, p: Path)
    requires forall j :: 0 <= j < |items| ==> items[j].path != p
    ensures Overlaid(disk, items, p) == if exists i :: 0 <= i < |items| && p <= items[i].path then Some(Dir) else Lookup(disk, p)
  {
  }

  lemma AboveIff(items: seq<Item>, p: Path)
    requires items != []
    ensures (exists i :: 0 <= i < |items| && p <= items[i].path)
            <==> p <= items[0].path || exists i :: 0 <= i < |items[1..]| && p <= items[1..][i].path
  {
    assert forall j :: 1 <= j < |items| ==> items[j] == items[1..][j - 1];
    if i :| 0 <= i < |items[1..]| && p <= items[1..][i].path { assert p <= items[i + 1].path; }
  }

  lemma OverlaidIs(disk: Disk, items: seq<Item>, p: Path, i: nat)
    requires Disjoint(items) && i < |items| && items[i].path == p
    ensures Overlaid(disk, items, p) == Some(items[i].entry)
  {
    assert forall j :: 0 <= j < |items| && items[j].path == p ==> items[j].path <= items[i].path;
  }

  lemma NothingAbove(items: seq<Item>, p: Path)
    requires Disjoint(items) && items != [] && items[0].path == p
    ensures forall j :: 0 <= j < |items[1..]| ==> !(p <= items[1..][j].path)
  {
    assert forall j :: 0 <= j < |items[1..]| ==> items[1..][j] == items[j + 1];
  }

  /** Without unsafe members, unpacking is exactly writing the items into the destination. */
  lemma SafeUnpacking(disk: Disk, destination: Path, archive: seq<Member>, expected: string)
    requires forall member <- archive :: Safe(destination, member)
    ensures var r := Extract(disk, destination, archive, expected);
            var unpacked := PutAll(Made(disk, destination), Items(destination, archive));
            && r.outcome != Unsafe
            && (r.outcome == NoDestination <==> !CanMake(disk, destination))
            && (r.outcome == Conflict <==> CanMake(disk, destination) && !unpacked.complete)
            && (CanMake(disk, destination) ==> r.disk == unpacked.disk)
  {
  }

  // ---------------------------------------------------------------- the verdict on an archive

  /** The member leads outside the destination, or is a link that does not name a directory. */
  ghost predicate Refused(destination: Path, member: Member) {
    || !(destination <= Walk(if "/" <= member.name then [] else destination, Split(member.name)))
    || (member.symlink && !(member.name != "" && member.name[|member.name| - 1] == '/'))
  }

  lemma RefusedIsUnsafe(destination: Path, member: Member)
    ensures Refused(destination, member) <==> !Safe(destination, member)
  {
  }

  /** One refused member is enough, and then nothing but the destination itself has been made. */
  lemma UnsafeIff(disk: Disk, destination: Path, archive: seq<Member>, expected: string)
    ensures var r := Extract(disk, destination, archive, expected);
            && (r.outcome == Unsafe <==>
                  CanMake(disk, destination) && exists i :: 0 <= i < |archive| && Refused(destination, archive[i]))
            && (r.outcome == Unsafe ==> r.disk == Made(disk, destination))
            && (r.outcome == NoDestination ==> r.disk == disk)
  {
    forall i | 0 <= i < |archive| ensures Refused(destination, archive[i]) <==> !Safe(destination, archive[i]) {
      RefusedIsUnsafe(destination, archive[i]);
    }
    if member :| member in archive && !Safe(destination, member) {
      var i :| 0 <= i < |archive| && archive[i] == member;
      assert Refused(destination, archive[i]);
    }
  }

  /** An extraction succeeds only with every member in place, a module directory, and a manifest file in it. */
  lemma ExtractedIff(disk: Disk, destination: Path, archive: seq<Member>, expected: string)
    requires CanMake(disk, destination) && forall i :: 0 <= i < |archive| ==> !Refused(destination, archive[i])
    ensures var r, root := Extract(disk, destination, archive, expected), Joined(destination, expected);
            var manifest := root + ["__manifest__.py"];
            && (r.outcome.Extracted? <==>
                  && PutAll(Made(disk, destination), Items(destination, archive)).complete
                  && root in r.disk && r.disk[root].Dir? && manifest in r.disk && r.disk[manifest].File?)
            && (r.outcome.Extracted? ==> r.outcome.root == root)
  {
    forall member | member in archive ensures Safe(destination, member) {
      var i :| 0 <= i < |archive| && archive[i] == member;
      RefusedIsUnsafe(destination, archive[i]);
    }
    SafeUnpacking(disk, destination, archive, expected);
  }
}
