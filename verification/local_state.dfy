/** The local inputs of a cycle in `core/src/sync_engine.rs`: the working manifest and the ignore filter. */
module LocalState {
  import opened Types
  import opened Manifests

  /** A content hash; HMACs are never empty. */
  type ContentHash = h: Hash | h != "" witness "0"

  /** A file of the vault directory, its content stood for by its hash. */
  datatype DiskFile = DiskFile(hash: ContentHash, modified: nat, size: nat)

  type Disk = map<Path, DiskFile>

  function OnDisk(disk: Disk, p: Path): Version {
    if p in disk then Present(disk[p].hash) else Gone
  }

  function Entry(f: DiskFile): FileEntry {
    FileEntry(f.hash, f.modified, f.size, false, "")
  }

  /** The walk: every file that is not ignored. */
  function Scan(disk: Disk, ignore: IgnoreRules): Manifest {
    map p | p in disk && !ignore(p) :: Entry(disk[p])
  }

  function Tombstone(e: FileEntry, now: nat): FileEntry {
    FileEntry(e.hash, now, e.size, true, e.encPath)
  }

  /** The walk plus a tombstone for every live base entry the walk did not see. */
  function WorkingManifest(scanned: Manifest, base: Manifest, now: nat): Manifest {
    map p | p in scanned.Keys + base.Keys && (p in scanned || !base[p].deleted)
      :: if p in scanned then scanned[p] else Tombstone(base[p], now)
  }

  method BuildWorkingManifest(scanned: Manifest, base: Manifest, now: nat) returns (current: Manifest)
    ensures current == WorkingManifest(scanned, base, now)
  {
    current := scanned;
    var todo := base.Keys;
    while todo != {}
      invariant todo <= base.Keys
      invariant current == WorkingManifest(scanned, map p | p in base.Keys - todo :: base[p], now)
      decreases todo
    {
      var p :| p in todo;
      if p !in scanned && !base[p].deleted {
        current := current[p := Tombstone(base[p], now)];
      }
      todo := todo - {p};
    }
    assert (map p | p in base.Keys - todo :: base[p]) == base;
  }

  function Visible(m: Manifest, ignore: IgnoreRules): Manifest {
    map p | p in m && !ignore(p) :: m[p]
  }

  /** What a cycle decides for a path, with ignored paths removed from all three manifests. */
  function Plan(base: Manifest, working: Manifest, remote: Manifest, ignore: IgnoreRules, p: Path): Decision {
    if ignore(p) then Nothing else DecisionAt(base, working, remote, p)
  }

  /** `diff_local_and_remote`: an ignored path is never mentioned, any other exactly when the sides differ. */
  method DiffLocalAndRemote(base: Manifest, working: Manifest, remote: Manifest, ignore: IgnoreRules)
    returns (d: ManifestDiff)
    ensures forall p :: Mentions(d, p) <==> !ignore(p) && At(working, p) != At(remote, p)
    ensures OnceEach(d)
    ensures forall a :: a in d.upload <==> !ignore(a.path) && PlannedUpload(base, working, remote, a.path) == Some(a)
    ensures forall a :: a in d.download <==>
              !ignore(a.path) && PlannedDownload(base, working, remote, a.path) == Some(a)
    ensures forall c :: c in d.conflicts <==>
              !ignore(c.path) && PlannedConflict(base, working, remote, c.path) == Some(c)
  {
    d := DiffManifests(Visible(base, ignore), Visible(working, ignore), Visible(remote, ignore));
    PlanListsOnce(Visible(base, ignore), Visible(working, ignore), Visible(remote, ignore), d);
    FilteredLists(base, working, remote, ignore, d);
    forall p ensures Mentions(d, p) <==> !ignore(p) && At(working, p) != At(remote, p) {
      FilteredAt(base, working, remote, ignore, p);
    }
  }

  /** Filtering hides the ignored paths and leaves the plan of every other path as it is. */
  lemma FilteredAt(base: Manifest, working: Manifest, remote: Manifest, ignore: IgnoreRules, p: Path)
    ensures var b, l, r := Visible(base, ignore), Visible(working, ignore), Visible(remote, ignore);
            if ignore(p) then DecisionAt(b, l, r, p) == Nothing && At(l, p) == At(r, p)
            else Get(b, p) == Get(base, p) && Get(l, p) == Get(working, p) && Get(r, p) == Get(remote, p)
    ensures DecisionAt(base, working, remote, p) != Nothing ==> p in working || p in remote
  {
  }

  lemma FilteredLists(base: Manifest, working: Manifest, remote: Manifest, ignore: IgnoreRules, d: ManifestDiff)
    requires var b, l, r := Visible(base, ignore), Visible(working, ignore), Visible(remote, ignore);
             ListsPlan(b, l, r, b.Keys + l.Keys + r.Keys, d)
    ensures forall a :: a in d.upload <==> !ignore(a.path) && PlannedUpload(base, working, remote, a.path) == Some(a)
    ensures forall a :: a in d.download <==>
              !ignore(a.path) && PlannedDownload(base, working, remote, a.path) == Some(a)
    ensures forall c :: c in d.conflicts <==>
              !ignore(c.path) && PlannedConflict(base, working, remote, c.path) == Some(c)
  {
    var b, l, r := Visible(base, ignore), Visible(working, ignore), Visible(remote, ignore);
    forall a: SyncAction
      ensures a in d.upload <==> !ignore(a.path) && PlannedUpload(base, working, remote, a.path) == Some(a)
      ensures a in d.download <==> !ignore(a.path) && PlannedDownload(base, working, remote, a.path) == Some(a)
    {
      FilteredAt(base, working, remote, ignore, a.path);
      assert a in d.upload <==> ActionPath(a) in b.Keys + l.Keys + r.Keys && PlannedUpload(b, l, r, a.path) == Some(a);
      assert a in d.download <==>
             ActionPath(a) in b.Keys + l.Keys + r.Keys && PlannedDownload(b, l, r, a.path) == Some(a);
    }
    forall c: Conflict
      ensures c in d.conflicts <==> !ignore(c.path) && PlannedConflict(base, working, remote, c.path) == Some(c)
    {
      FilteredAt(base, working, remote, ignore, c.path);
      assert c in d.conflicts <==>
             ConflictPath(c) in b.Keys + l.Keys + r.Keys && PlannedConflict(b, l, r, c.path) == Some(c);
    }
  }

  /** Synthesized tombstones never change a version: the working manifest shows exactly the disk. */
  lemma WorkingShowsDisk(disk: Disk, base: Manifest, ignore: IgnoreRules, now: nat, p: Path)
    requires !ignore(p)
    ensures At(WorkingManifest(Scan(disk, ignore), base, now), p) == OnDisk(disk, p)
  {
  }
}
