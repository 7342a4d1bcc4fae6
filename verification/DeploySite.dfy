/**
 A deployment job on the tree of addons.

 The runner's transaction moves one module's directory aside and back; the archive, though, is
 unpacked into the directory that holds all modules.  Here the two are joined: what the tree
 looks like after a job, for the module and for its neighbours.
 */
module DeploySite {
  import opened Wrappers
  import opened Paths
  import opened Extraction
  import DeployRunner
  import Packaging

  type Content = DeployRunner.Content

  // ---------------------------------------------------------------- one directory of the tree

  function Suffixes(disk: Disk, root: Path): set<Path> {
    set p | p in disk && root <= p :: p[|root|..]
  }

  function ContentAt(disk: Disk, root: Path): Option<Content> {
    if root in disk then Some(map q | q in Suffixes(disk, root) && root + q in disk :: disk[root + q]) else None
  }

  /** The tree without the directory. */
  function Cleared(disk: Disk, root: Path): Disk {
    map p | p in disk && !(root <= p) :: disk[p]
  }

  /** The tree with this content, or nothing, for the directory. */
  function WithContent(disk: Disk, root: Path, content: Option<Content>): Disk {
    match content
    case None => Cleared(disk, root)
    case Some(c) =>
      map p | p in Cleared(disk, root).Keys + (set q | q in c :: root + q) ::
        if root <= p && p[|root|..] in c then c[p[|root|..]] else if p in disk then disk[p] else Dir
  }

  lemma WithContentLookup(disk: Disk, root: Path, content: Option<Content>, p: Path)
    ensures Lookup(WithContent(disk, root, content), p)
            == if !(root <= p) then Lookup(disk, p)
               else if content.Some? && p[|root|..] in content.value then Some(content.value[p[|root|..]])
               else None
  {
    if root <= p {
      assert root + p[|root|..] == p;
    } else {
      forall q: Path ensures root + q != p {
        assert root <= root + q;
      }
    }
  }

  lemma ContentLookup(disk: Disk, root: Path, q: Path)
    requires root in disk
    ensures Lookup(disk, root + q) == if q in ContentAt(disk, root).value then Some(ContentAt(disk, root).value[q]) else None
  {
    assert root <= root + q && (root + q)[|root|..] == q;
  }

  lemma AncestorsStand(disk: Disk, root: Path, p: Path)
    requires Tree(disk) && root <= p && p in disk
    ensures root in disk
  {
    assert p[..|root|] == root && p[..|p|] == p;
    if |root| < |p| {
      assert Lookup(disk, p[..|root|]) == Some(Dir);
    }
  }

  /** Putting back what was there restores the directory, whatever happened to it meanwhile. */
  lemma RestoredDirectory(disk: Disk, changed: Disk, root: Path, p: Path)
    requires Tree(disk)
    ensures Lookup(WithContent(changed, root, ContentAt(disk, root)), p)
            == if root <= p then Lookup(disk, p) else Lookup(changed, p)
  {
    WithContentLookup(changed, root, ContentAt(disk, root), p);
    if root <= p {
      assert root + p[|root|..] == p;
      if root in disk { ContentLookup(disk, root, p[|root|..]); }
      if p in disk { AncestorsStand(disk, root, p); }
    }
  }

  // ---------------------------------------------------------------- the job on the tree

  /** One job for one module below the directory of all modules. */
  datatype Site = Site(disk: Disk, addons: Path, name: string, archive: seq<Member>)

  function Root(site: Site): Path {
    site.addons + [site.name]
  }

  /** Unpacking starts from the tree with the module moved aside. */
  function Unpacking(site: Site): Result {
    Extract(Cleared(site.disk, Root(site)), site.addons, site.archive, site.name)
  }

  /** Does the job get as far as unpacking? */
  predicate Unpacks(h: DeployRunner.Host, job: DeployRunner.Job, f: DeployRunner.Faults) {
    DeployRunner.Installs(h, job, f) && f.dump.Dumped? && f.tempOk
  }

  /** The host's view of the module, and the outcome of unpacking, are those of the tree. */
  ghost predicate Coupled(site: Site, h: DeployRunner.Host, job: DeployRunner.Job, f: DeployRunner.Faults) {
    && Proper(site.name) && Tree(site.disk) && Lookup(site.disk, site.addons) == Some(Dir)
    && h.addon == ContentAt(site.disk, Root(site))
    && f.crash == DeployRunner.Never
    && (Unpacks(h, job, f) ==>
          && (f.extract.Extracted? <==> Unpacking(site).outcome == Extracted(Root(site)))
          && ContentAt(Unpacking(site).disk, Root(site))
             == if f.extract.Extracted? then Some(job.package) else f.extract.partial)
  }

  /** The tree after the job: what unpacking left, and the module as the transaction leaves it. */
  function TreeAfter(site: Site, h: DeployRunner.Host, job: DeployRunner.Job, f: DeployRunner.Faults): Disk {
    WithContent(if Unpacks(h, job, f) then Unpacking(site).disk else site.disk, Root(site),
                DeployRunner.Deploy(h, job, f).host.addon)
  }

  /** Everything outside the module is as it was. */
  ghost predicate OthersKept(site: Site, after: Disk) {
    forall p :: !(Root(site) <= p) ==> Lookup(after, p) == Lookup(site.disk, p)
  }

  lemma OthersFollowUnpacking(site: Site, h: DeployRunner.Host, job: DeployRunner.Job, f: DeployRunner.Faults)
    ensures OthersKept(site, TreeAfter(site, h, job, f)) <==> (Unpacks(h, job, f) ==> OthersKept(site, Unpacking(site).disk))
  {
    var base := if Unpacks(h, job, f) then Unpacking(site).disk else site.disk;
    forall p | !(Root(site) <= p) ensures Lookup(TreeAfter(site, h, job, f), p) == Lookup(base, p) {
      WithContentLookup(base, Root(site), DeployRunner.Deploy(h, job, f).host.addon, p);
    }
  }

  /**
   After an unsuccessful job under a fresh id, whose failed dump left no file, the whole tree is
   as before if and only if unpacking left the module's neighbours alone: no handler looks at them.
   */
  lemma TreeCompensation(site: Site, h: DeployRunner.Host, job: DeployRunner.Job, f: DeployRunner.Faults)
    requires Coupled(site, h, job, f) && DeployRunner.FreshJob(h)
    requires DeployRunner.Deploy(h, job, f).host.report != Some(DeployRunner.Succeeded)
    requires f.dump.DumpFailed? ==> f.dump.left.None?
    ensures (forall p :: Lookup(TreeAfter(site, h, job, f), p) == Lookup(site.disk, p))
            <==> (Unpacks(h, job, f) ==> OthersKept(site, Unpacking(site).disk))
  {
    var base := if Unpacks(h, job, f) then Unpacking(site).disk else site.disk;
    DeployRunner.FreshCompensation(h, job, f);
    OthersFollowUnpacking(site, h, job, f);
    forall p | Root(site) <= p ensures Lookup(TreeAfter(site, h, job, f), p) == Lookup(site.disk, p) {
      RestoredDirectory(site.disk, base, Root(site), p);
    }
  }

  // ---------------------------------------------------------------- which archives keep to their module

  lemma ClearedLookup(disk: Disk, root: Path, p: Path)
    ensures Lookup(Cleared(disk, root), p) == if root <= p then None else Lookup(disk, p)
  {
  }

  lemma ClearedSite(site: Site)
    requires Proper(site.name) && Tree(site.disk) && Lookup(site.disk, site.addons) == Some(Dir)
    ensures var disk := Cleared(site.disk, Root(site));
            && Tree(disk) && Lookup(disk, site.addons) == Some(Dir) && CanMake(disk, site.addons)
            && forall p :: Lookup(Made(disk, site.addons), p) == Lookup(disk, p)
  {
    var disk := Cleared(site.disk, Root(site));
    assert !(Root(site) <= site.addons);
    forall p, k | p in disk && 0 <= k < |p| ensures Lookup(disk, p[..k]) == Some(Dir) {
      assert Lookup(site.disk, p[..k]) == Some(Dir);
      PrefixOfPrefix(Root(site), p, k);
    }
    forall k | 0 <= k < |site.addons| ensures Lookup(disk, site.addons[..k]) == Some(Dir) {
      assert site.addons in disk;
    }
    forall p ensures Lookup(Made(disk, site.addons), p) == Lookup(disk, p) {
      PutLookup(disk, Item(site.addons, Dir), p);
      if p <= site.addons { assert p == site.addons[..|p|]; assert site.addons[..|site.addons|] == site.addons; }
    }
  }

  lemma PrefixOfPrefix(root: Path, p: Path, k: nat)
    requires k <= |p|
    ensures root <= p[..k] ==> root <= p
  {
    if root <= p[..k] { assert p == p[..k] + p[k..]; }
  }

  lemma SuccessUnpacked(h: DeployRunner.Host, job: DeployRunner.Job, f: DeployRunner.Faults)
    requires f.crash == DeployRunner.Never && DeployRunner.Deploy(h, job, f).host.report == Some(DeployRunner.Succeeded)
    ensures Unpacks(h, job, f) && f.extract.Extracted? && DeployRunner.Deploy(h, job, f).host.addon == Some(job.package)
  {
  }

  /** After a successful job the tree is what unpacking made of it, in the module and around it. */
  lemma TreeSuccess(site: Site, h: DeployRunner.Host, job: DeployRunner.Job, f: DeployRunner.Faults, p: Path)
    requires Coupled(site, h, job, f) && DeployRunner.Deploy(h, job, f).host.report == Some(DeployRunner.Succeeded)
    ensures Unpacking(site).outcome == Extracted(Root(site))
    ensures Lookup(TreeAfter(site, h, job, f), p) == Lookup(Unpacking(site).disk, p)
  {
    SuccessUnpacked(h, job, f);
    ClearedSite(site);
    ExtractsInside(Cleared(site.disk, Root(site)), site.addons, site.archive, site.name, p);
    RestoredDirectory(Unpacking(site).disk, Unpacking(site).disk, Root(site), p);
  }

  /** Every member lies in the job's own module. */
  ghost predicate KeepsToModule(site: Site) {
    forall member <- site.archive :: Root(site) <= ItemOf(site.addons, member).path
  }

  lemma {:induction false} WritesBelow(disk: Disk, addons: Path, root: Path, items: seq<Item>, p: Path)
    requires Tree(disk) && Lookup(disk, addons) == Some(Dir) && |root| == |addons| + 1 && addons <= root
    requires (forall item <- items :: root <= item.path) && !(root <= p)
    ensures Lookup(PutAll(disk, items).disk, p) == Lookup(disk, p)
    decreases |items|
  {
    if items != [] && CanHold(disk, items[0]) {
      var next := Put(disk, items[0]);
      assert items[0] in items;
      PutKeepsTree(disk, items[0]);
      PutLookup(disk, items[0], p);
      PutLookup(disk, items[0], addons);
      if p <= items[0].path { ShortPrefix(addons, root, items[0].path, p); }
      assert p <= addons ==> p == addons[..|p|] && Lookup(disk, p) == Some(Dir) by {
        assert addons[..|addons|] == addons;
        if p <= addons && |p| < |addons| { assert Lookup(disk, addons[..|p|]) == Some(Dir); }
      }
      WritesBelow(next, addons, root, items[1..], p);
    }
  }

  lemma ShortPrefix(addons: Path, root: Path, path: Path, p: Path)
    requires |root| == |addons| + 1 && addons <= root <= path && p <= path && !(root <= p)
    ensures p <= addons
  {
    assert p == path[..|p|] && root == path[..|root|] && addons == path[..|addons|];
  }

  /** An archive that keeps to its module leaves the neighbours alone, however unpacking ends. */
  lemma OwnMembersKeepOthers(site: Site)
    requires Proper(site.name) && Tree(site.disk) && Lookup(site.disk, site.addons) == Some(Dir) && KeepsToModule(site)
    ensures OthersKept(site, Unpacking(site).disk)
  {
    var disk := Cleared(site.disk, Root(site));
    var items := Items(site.addons, site.archive);
    ClearedSite(site);
    MadeIsTree(disk, site.addons, site.addons);
    forall item | item in items ensures Root(site) <= item.path {
      var i :| 0 <= i < |items| && items[i] == item;
      assert site.archive[i] in site.archive;
    }
    forall p | !(Root(site) <= p) ensures Lookup(Unpacking(site).disk, p) == Lookup(site.disk, p) {
      ClearedLookup(site.disk, Root(site), p);
      WritesBelow(Made(disk, site.addons), site.addons, Root(site), items, p);
    }
  }

  /** How many items are in place when unpacking ends. */
  function Count(disk: Disk, items: seq<Item>): (n: nat)
    ensures n <= |items|
    decreases |items|
  {
    if items == [] || !CanHold(disk, items[0]) then 0 else 1 + Count(Put(disk, items[0]), items[1..])
  }

  /** Unpacking comes to what unpacking the items before the conflict completely does. */
  lemma {:induction false} CountedAreWritten(disk: Disk, items: seq<Item>)
    ensures PutAll(disk, items[..Count(disk, items)]) == Unpacked(PutAll(disk, items).disk, true)
    ensures PutAll(disk, items).complete <==> Count(disk, items) == |items|
    decreases |items|
  {
    if items != [] && CanHold(disk, items[0]) {
      var next := Put(disk, items[0]);
      CountedAreWritten(next, items[1..]);
      assert items[..Count(disk, items)][1..] == items[1..][..Count(next, items[1..])];
    }
  }

  /** The members in place when unpacking ends: all of them, or those before the first conflict. */
  function Written(site: Site): seq<Item> {
    var items, made := Items(site.addons, site.archive), Made(Cleared(site.disk, Root(site)), site.addons);
    if Unpacking(site).outcome in {NoDestination, Unsafe} then [] else items[..Count(made, items)]
  }

  /**
   For an archive without overlapping members, however unpacking ends, the neighbours are as
   before if and only if every member written outside the module was already there, just as it is.
   */
  lemma OthersKeptIff(site: Site)
    requires Proper(site.name) && Tree(site.disk) && Lookup(site.disk, site.addons) == Some(Dir)
    requires Disjoint(Items(site.addons, site.archive))
    ensures OthersKept(site, Unpacking(site).disk)
            <==> forall item <- Written(site) :: !(Root(site) <= item.path) ==> Lookup(site.disk, item.path) == Some(item.entry)
  {
    var made, written := Made(Cleared(site.disk, Root(site)), site.addons), Written(site);
    ClearedSite(site);
    WrittenLeaveDisk(site);
    if OthersKept(site, Unpacking(site).disk) {
      forall item | item in written && !(Root(site) <= item.path) ensures Lookup(site.disk, item.path) == Some(item.entry) {
        PutAllOverlays(made, written, item.path);
        OverlaidAt(made, written, item);
      }
    }
    if forall item <- written :: !(Root(site) <= item.path) ==> Lookup(site.disk, item.path) == Some(item.entry) {
      forall p | !(Root(site) <= p) ensures Lookup(Unpacking(site).disk, p) == Lookup(site.disk, p) {
        PutAllOverlays(made, written, p);
        ClearedLookup(site.disk, Root(site), p);
        StandingMembersShowNothingNew(site, made, written, p);
      }
    }
  }

  lemma WrittenLeaveDisk(site: Site)
    requires CanMake(Cleared(site.disk, Root(site)), site.addons) && Disjoint(Items(site.addons, site.archive))
    ensures Disjoint(Written(site)) && forall item <- Written(site) :: site.addons <= item.path
    ensures PutAll(Made(Cleared(site.disk, Root(site)), site.addons), Written(site)) == Unpacked(Unpacking(site).disk, true)
    ensures Unpacking(site).outcome !in {Unsafe, Conflict} ==> Written(site) == Items(site.addons, site.archive)
  {
    CountedAreWritten(Made(Cleared(site.disk, Root(site)), site.addons), Items(site.addons, site.archive));
  }

  lemma OverlaidAt(disk: Disk, items: seq<Item>, item: Item)
    requires Disjoint(items) && item in items
    ensures Overlaid(disk, items, item.path) == Some(item.entry)
  {
    var k :| 0 <= k < |items| && items[k] == item;
    OverlaidIs(disk, items, item.path, k);
  }

  lemma StandingMembersShowNothingNew(site: Site, made: Disk, items: seq<Item>, p: Path)
    requires Tree(site.disk) && Lookup(site.disk, site.addons) == Some(Dir)
    requires !(Root(site) <= p) && Lookup(made, p) == Lookup(site.disk, p)
    requires forall item <- items :: site.addons <= item.path
    requires forall item <- items :: !(Root(site) <= item.path) ==> Lookup(site.disk, item.path) == Some(item.entry)
    ensures Overlaid(made, items, p) == Lookup(site.disk, p)
  {
    if i :| 0 <= i < |items| && items[i].path == p {
      forall j | 0 <= j < |items| && items[j].path == p ensures Some(items[j].entry) == Lookup(site.disk, p) {
        assert items[j] in items;
      }
    } else if i :| 0 <= i < |items| && p <= items[i].path {
      assert items[i] in items;
      var path := items[i].path;
      assert p == path[..|p|] && path[..|path|] == path && |p| < |path|;
      assert site.addons[..|site.addons|] == site.addons;
      if Root(site) <= path {
        ShortPrefix(site.addons, Root(site), path, p);
        assert p == site.addons[..|p|];
        if |p| < |site.addons| { assert Lookup(site.disk, site.addons[..|p|]) == Some(Dir); }
      } else {
        assert Lookup(site.disk, path[..|p|]) == Some(Dir);
      }
    }
  }

  // ---------------------------------------------------------------- packages, and what else may arrive

  lemma PackagesKeepToModule(site: Site, files: Packaging.Files, enumeration: seq<Path>)
    requires Proper(site.name) && Packaging.WellFormed(files) && Packaging.Enumerates(enumeration, files)
    requires site.archive == Packaging.Package(site.name, files, enumeration)
    ensures KeepsToModule(site)
  {
    var items, chosen := Packaging.PackageItems(site.addons, site.name, files, enumeration);
    forall member | member in site.archive ensures Root(site) <= ItemOf(site.addons, member).path {
      var i :| 0 <= i < |site.archive| && site.archive[i] == member;
      assert items[i] == ItemOf(site.addons, site.archive[i]);
    }
  }

  /** A failed deployment of a canonical package leaves the whole tree as it was. */
  lemma PackageCompensation(site: Site, h: DeployRunner.Host, job: DeployRunner.Job, f: DeployRunner.Faults,
                            files: Packaging.Files, enumeration: seq<Path>, p: Path)
    requires Coupled(site, h, job, f) && DeployRunner.FreshJob(h)
    requires DeployRunner.Deploy(h, job, f).host.report != Some(DeployRunner.Succeeded)
    requires f.dump.DumpFailed? ==> f.dump.left.None?
    requires Packaging.WellFormed(files) && Packaging.Enumerates(enumeration, files)
    requires site.archive == Packaging.Package(site.name, files, enumeration)
    ensures Lookup(TreeAfter(site, h, job, f), p) == Lookup(site.disk, p)
  {
    PackagesKeepToModule(site, files, enumeration);
    OwnMembersKeepOthers(site);
    TreeCompensation(site, h, job, f);
  }

  // ---------------------------------------------------------------- a neighbour that is lost

  /** A member outside the module stays where it was unpacked, whatever becomes of the job. */
  lemma ForeignMemberStays(site: Site, h: DeployRunner.Host, job: DeployRunner.Job, f: DeployRunner.Faults, item: Item)
    requires Unpacks(h, job, f) && Unpacking(site).outcome !in {NoDestination, Unsafe, Conflict}
    requires Disjoint(Items(site.addons, site.archive))
    requires item in Items(site.addons, site.archive) && !(Root(site) <= item.path)
    ensures Lookup(TreeAfter(site, h, job, f), item.path) == Some(item.entry)
  {
    var made, items := Made(Cleared(site.disk, Root(site)), site.addons), Items(site.addons, site.archive);
    PutAllOverlays(made, items, item.path);
    OverlaidAt(made, items, item);
    WithContentLookup(Unpacking(site).disk, Root(site), DeployRunner.Deploy(h, job, f).host.addon, item.path);
  }

  const NEIGHBOUR: Path := ["other", "x.py"]

  /** An addon beside the module, and an archive that brings a file for either. */
  function TwoModules(): Site {
    Site(map[[] := Dir, ["other"] := Dir, NEIGHBOUR := File([1])], [], "m",
         [Member(Join(["m"] + [MANIFEST]), [], false), Member(Join(["other"] + ["x.py"]), [2], false)])
  }

  lemma OwnMember()
    ensures var member := TwoModules().archive[0];
            Safe([], member) && ItemOf([], member) == Item(["m", MANIFEST], File([]))
  {
    assert Proper("m") && AllProper([MANIFEST]);
    Packaging.PackagedMember([], "m", map[[MANIFEST] := []], [MANIFEST]);
    assert [] + ["m"] + [MANIFEST] == ["m", MANIFEST];
  }

  lemma ForeignMember()
    ensures var member := TwoModules().archive[1];
            Safe([], member) && ItemOf([], member) == Item(NEIGHBOUR, File([2]))
  {
    assert Proper("other") && AllProper(["x.py"]);
    Packaging.PackagedMember([], "other", map[["x.py"] := [2]], ["x.py"]);
    assert [] + ["other"] + ["x.py"] == NEIGHBOUR;
  }

  lemma TwoModulesItems()
    ensures var site, items := TwoModules(), Items([], TwoModules().archive);
            && items == [Item(["m", MANIFEST], File([])), Item(NEIGHBOUR, File([2]))]
            && forall member <- site.archive :: Safe([], member)
  {
    OwnMember();
    ForeignMember();
  }

  lemma TwoModulesTree()
    ensures Tree(TwoModules().disk) && Proper("m") && !(["m"] <= NEIGHBOUR) && !(NEIGHBOUR <= ["m", MANIFEST])
  {
    var disk := TwoModules().disk;
    assert "m" != "other" && NEIGHBOUR[0] == "other" && ["m", MANIFEST][0] == "m";
    forall p, k | p in disk && 0 <= k < |p| ensures Lookup(disk, p[..k]) == Some(Dir) {
      assert NEIGHBOUR[..1] == ["other"] && NEIGHBOUR[..0] == [] && ["other"][..0] == [];
    }
  }

  lemma TwoModulesRoom(made: Disk)
    requires forall p :: Lookup(made, p) == if ["m"] <= p then None else Lookup(TwoModules().disk, p)
    ensures CanHold(made, Item(["m", MANIFEST], File([]))) && CanHold(made, Item(NEIGHBOUR, File([2])))
  {
    TwoModulesTree();
    assert ["m", MANIFEST][..1] == ["m"] && ["m", MANIFEST][..0] == [];
    assert NEIGHBOUR[..1] == ["other"] && NEIGHBOUR[..0] == [];
    assert forall k :: 0 <= k < 2 ==> Lookup(made, ["m", MANIFEST][..k]) in {None, Some(Dir)};
    assert forall k :: 0 <= k < 2 ==> Lookup(made, NEIGHBOUR[..k]) in {None, Some(Dir)};
    assert Lookup(made, ["m", MANIFEST]).None?;
    assert Lookup(made, NEIGHBOUR) == Some(File([1]));
  }

  lemma CompleteUnpacking(site: Site)
    requires CanMake(Cleared(site.disk, Root(site)), site.addons)
    requires forall member <- site.archive :: Safe(site.addons, member)
    requires PutAll(Made(Cleared(site.disk, Root(site)), site.addons), Items(site.addons, site.archive)).complete
    ensures Unpacking(site).outcome !in {NoDestination, Unsafe, Conflict}
  {
  }

  lemma TwoModulesApart()
    ensures Disjoint(Items([], TwoModules().archive))
  {
    TwoModulesItems();
    TwoModulesTree();
    assert !(["m", MANIFEST] <= NEIGHBOUR);
  }

  lemma TwoModulesCleared(p: Path)
    ensures CanMake(Cleared(TwoModules().disk, ["m"]), [])
    ensures Lookup(Made(Cleared(TwoModules().disk, ["m"]), []), p) == if ["m"] <= p then None else Lookup(TwoModules().disk, p)
  {
    TwoModulesTree();
    assert Root(TwoModules()) == ["m"];
    ClearedSite(TwoModules());
    ClearedLookup(TwoModules().disk, ["m"], p);
  }

  lemma TwoModulesUnpack()
    ensures Unpacking(TwoModules()).outcome !in {NoDestination, Unsafe, Conflict}
  {
    var made, items := Made(Cleared(TwoModules().disk, ["m"]), []), Items([], TwoModules().archive);
    forall p ensures Lookup(made, p) == if ["m"] <= p then None else Lookup(TwoModules().disk, p) {
      TwoModulesCleared(p);
    }
    TwoModulesItems();
    TwoModulesRoom(made);
    TwoModulesApart();
    PutAllOverlays(made, items, []);
    assert Root(TwoModules()) == ["m"];
    TwoModulesCleared([]);
    CompleteUnpacking(TwoModules());
  }

  /** Unpacking overwrites the neighbour's file, and nothing that follows puts it back. */
  lemma NeighbourIsLost(h: DeployRunner.Host, job: DeployRunner.Job, f: DeployRunner.Faults)
    requires Unpacks(h, job, f)
    ensures Lookup(TwoModules().disk, NEIGHBOUR) == Some(File([1]))
    ensures Lookup(TreeAfter(TwoModules(), h, job, f), NEIGHBOUR) == Some(File([2]))
  {
    TwoModulesItems();
    TwoModulesTree();
    TwoModulesApart();
    TwoModulesUnpack();
    ForeignMemberStays(TwoModules(), h, job, f, Item(NEIGHBOUR, File([2])));
  }
}
