/** `core/src/manifest.rs`: versions, the three-way diff and the next checkpoint. */
module Manifests {
  import opened Types

  /** What a path holds on one side; a tombstone and a missing entry are the same version. */
  datatype Version = Gone | Present(hash: Hash)

  function VersionOf(entry: Option<FileEntry>): Version {
    if entry.Some? && !entry.value.deleted then Present(entry.value.hash) else Gone
  }

  function At(m: Manifest, p: Path): Version {
    VersionOf(Get(m, p))
  }

  /** What the diff decides for one path. */
  datatype Decision = Nothing | Up(kind: SyncActionKind) | Down(kind: SyncActionKind) | Clash

  function Decide(base: Version, local: Version, remote: Version): Decision {
    match (local != base, remote != base)
    case (false, false) => Nothing
    case (true, false) => Up(if local.Present? then Upload else DeleteRemote)
    case (false, true) => Down(if remote.Present? then Download else DeleteLocal)
    case (true, true) => if local == remote then Nothing else Clash
  }

  /** The textbook three-way merge: agreement wins, otherwise the one side that moved. */
  function Merge3(base: Version, local: Version, remote: Version): Option<Version> {
    if local == remote then Some(local)
    else if local == base then Some(remote)
    else if remote == base then Some(local)
    else None
  }

  /** Both sides after carrying out a decision: uploads copy local over remote, downloads the reverse. */
  function CarryOut(d: Decision, local: Version, remote: Version): (Version, Version) {
    match d
    case Up(Upload) => (local, local)
    case Up(_) => (local, Gone)
    case Down(Download) => (remote, remote)
    case Down(_) => (Gone, remote)
    case _ => (local, remote)
  }

  /**
   * Carrying out a decision is the three-way merge on both sides, a clash is exactly a merge
   * without a result, and exchanging the two sides exchanges the two directions.
   */
  lemma DecideIsThreeWayMerge(base: Version, local: Version, remote: Version)
    ensures var d := Decide(base, local, remote);
            match Merge3(base, local, remote)
            case Some(v) => d != Clash && CarryOut(d, local, remote) == (v, v)
            case None => d == Clash
    ensures Decide(base, local, remote) == Nothing <==> local == remote
    ensures Decide(base, local, remote).Up? <==> Decide(base, remote, local).Down?
  {
  }

  /** The entry of a side, or a tombstone made from the base when the side has none. */
  function LocalOrTombstone(entry: Option<FileEntry>, base: Option<FileEntry>): FileEntry {
    match (entry, base)
    case (Some(e), _) => e
    case (None, Some(b)) => FileEntry(b.hash, b.modified, b.size, true, b.encPath)
    case (None, None) => FileEntry("", 0, 0, true, "")
  }

  function DecisionAt(base: Manifest, local: Manifest, remote: Manifest, p: Path): Decision {
    Decide(At(base, p), At(local, p), At(remote, p))
  }

  function PlannedUpload(base: Manifest, local: Manifest, remote: Manifest, p: Path): Option<SyncAction> {
    match DecisionAt(base, local, remote, p)
    case Up(kind) =>
      Some(SyncAction(p, kind, Some(LocalOrTombstone(Get(local, p), Get(base, p))), Get(remote, p)))
    case _ => None
  }

  function PlannedDownload(base: Manifest, local: Manifest, remote: Manifest, p: Path): Option<SyncAction> {
    match DecisionAt(base, local, remote, p)
    case Down(kind) =>
      Some(SyncAction(p, kind, Get(local, p), Some(LocalOrTombstone(Get(remote, p), Get(base, p)))))
    case _ => None
  }

  function PlannedConflict(base: Manifest, local: Manifest, remote: Manifest, p: Path): Option<Conflict> {
    match DecisionAt(base, local, remote, p)
    case Clash =>
      Some(Conflict(p, LocalOrTombstone(Get(local, p), Get(base, p)), LocalOrTombstone(Get(remote, p), Get(base, p))))
    case _ => None
  }

  datatype ManifestDiff =
    ManifestDiff(upload: seq<SyncAction>, download: seq<SyncAction>, conflicts: seq<Conflict>)

  /** `xs` holds what `plan` gives for the paths of `within`, once each; `key` reads an item's path. */
  ghost predicate Lists<T(!new)>(plan: Path -> Option<T>, key: T -> Path, within: set<Path>, xs: seq<T>) {
    && (forall i, j :: 0 <= i < j < |xs| ==> key(xs[i]) != key(xs[j]))
    && (forall x :: x in xs <==> key(x) in within && plan(key(x)) == Some(x))
  }

  lemma ListsMore<T(!new)>(plan: Path -> Option<T>, key: T -> Path, within: set<Path>, xs: seq<T>, p: Path)
    requires Lists(plan, key, within, xs) && p !in within
    requires plan(p).Some? ==> key(plan(p).value) == p
    ensures Lists(plan, key, within + {p}, if plan(p).Some? then xs + [plan(p).value] else xs)
  {
    if plan(p).Some? {
      var ys := xs + [plan(p).value];
      forall x ensures x in ys <==> key(x) in within + {p} && plan(key(x)) == Some(x) {
        assert x in ys <==> x in xs || x == plan(p).value;
      }
      forall i, j | 0 <= i < j < |ys| ensures key(ys[i]) != key(ys[j]) {
        assert xs[i] in xs;
      }
    }
  }

  function ActionPath(a: SyncAction): Path { a.path }

  function ConflictPath(c: Conflict): Path { c.path }

  /** `d` lists, once each and for the paths of `within` only, what the three manifests plan. */
  ghost predicate ListsPlan(base: Manifest, local: Manifest, remote: Manifest, within: set<Path>, d: ManifestDiff) {
    && Lists(p => PlannedUpload(base, local, remote, p), ActionPath, within, d.upload)
    && Lists(p => PlannedDownload(base, local, remote, p), ActionPath, within, d.download)
    && Lists(p => PlannedConflict(base, local, remote, p), ConflictPath, within, d.conflicts)
  }

  lemma ListsPlanMore(base: Manifest, local: Manifest, remote: Manifest, within: set<Path>, d: ManifestDiff, p: Path,
                      d': ManifestDiff)
    requires ListsPlan(base, local, remote, within, d) && p !in within
    requires d'.upload == d.upload + Item(PlannedUpload(base, local, remote, p))
    requires d'.download == d.download + Item(PlannedDownload(base, local, remote, p))
    requires d'.conflicts == d.conflicts + Item(PlannedConflict(base, local, remote, p))
    ensures ListsPlan(base, local, remote, within + {p}, d')
  {
    ListsMore(p => PlannedUpload(base, local, remote, p), ActionPath, within, d.upload, p);
    ListsMore(p => PlannedDownload(base, local, remote, p), ActionPath, within, d.download, p);
    ListsMore(p => PlannedConflict(base, local, remote, p), ConflictPath, within, d.conflicts, p);
  }

  function Item<T>(o: Option<T>): seq<T> {
    if o.Some? then [o.value] else []
  }

  ghost predicate Mentions(d: ManifestDiff, p: Path) {
    || (exists a :: a in d.upload && a.path == p)
    || (exists a :: a in d.download && a.path == p)
    || (exists c :: c in d.conflicts && c.path == p)
  }

  /** No path is listed twice, within a list or across two. */
  ghost predicate OnceEach(d: ManifestDiff) {
    && (forall i, j :: 0 <= i < j < |d.upload| ==> d.upload[i].path != d.upload[j].path)
    && (forall i, j :: 0 <= i < j < |d.download| ==> d.download[i].path != d.download[j].path)
    && (forall i, j :: 0 <= i < j < |d.conflicts| ==> d.conflicts[i].path != d.conflicts[j].path)
    && (forall a, b :: a in d.upload && b in d.download ==> a.path != b.path)
    && (forall a, c :: a in d.upload && c in d.conflicts ==> a.path != c.path)
    && (forall a, c :: a in d.download && c in d.conflicts ==> a.path != c.path)
  }

  lemma PlanListsOnce(base: Manifest, local: Manifest, remote: Manifest, d: ManifestDiff)
    requires ListsPlan(base, local, remote, base.Keys + local.Keys + remote.Keys, d)
    ensures OnceEach(d)
  {
    forall i, j | 0 <= i < j < |d.upload| ensures d.upload[i].path != d.upload[j].path {
      assert ActionPath(d.upload[i]) != ActionPath(d.upload[j]);
    }
    forall i, j | 0 <= i < j < |d.download| ensures d.download[i].path != d.download[j].path {
      assert ActionPath(d.download[i]) != ActionPath(d.download[j]);
    }
    forall i, j | 0 <= i < j < |d.conflicts| ensures d.conflicts[i].path != d.conflicts[j].path {
      assert ConflictPath(d.conflicts[i]) != ConflictPath(d.conflicts[j]);
    }
    forall a | a in d.upload ensures DecisionAt(base, local, remote, a.path).Up? {
      assert PlannedUpload(base, local, remote, ActionPath(a)) == Some(a);
    }
    forall a | a in d.download ensures DecisionAt(base, local, remote, a.path).Down? {
      assert PlannedDownload(base, local, remote, ActionPath(a)) == Some(a);
    }
    forall c | c in d.conflicts ensures DecisionAt(base, local, remote, c.path).Clash? {
      assert PlannedConflict(base, local, remote, ConflictPath(c)) == Some(c);
    }
  }

  /**
   * The three-way diff. Whatever order the paths are visited in, every path on which the two
   * sides hold different versions is listed, and no other.
   */
  method DiffManifests(base: Manifest, local: Manifest, remote: Manifest) returns (d: ManifestDiff)
    ensures ListsPlan(base, local, remote, base.Keys + local.Keys + remote.Keys, d)
    ensures forall p :: Mentions(d, p) <==> At(local, p) != At(remote, p)
  {
    var paths := base.Keys + local.Keys + remote.Keys;
    var upload: seq<SyncAction>, download: seq<SyncAction>, conflicts: seq<Conflict> := [], [], [];
    var todo := paths;
    while todo != {}
      invariant todo <= paths
      invariant ListsPlan(base, local, remote, paths - todo, ManifestDiff(upload, download, conflicts))
      decreases todo
    {
      var p :| p in todo;
      ghost var before := ManifestDiff(upload, download, conflicts);
      var localEntry, remoteEntry, baseEntry := Get(local, p), Get(remote, p), Get(base, p);
      var localVersion, remoteVersion, baseVersion :=
          VersionOf(localEntry), VersionOf(remoteEntry), VersionOf(baseEntry);
      var localChanged, remoteChanged := localVersion != baseVersion, remoteVersion != baseVersion;
      if localChanged && !remoteChanged {
        var kind := if localVersion.Present? then Upload else DeleteRemote;
        upload := upload + [SyncAction(p, kind, Some(LocalOrTombstone(localEntry, baseEntry)), remoteEntry)];
      } else if !localChanged && remoteChanged {
        var kind := if remoteVersion.Present? then Download else DeleteLocal;
        download := download + [SyncAction(p, kind, localEntry, Some(LocalOrTombstone(remoteEntry, baseEntry)))];
      } else if localChanged && remoteChanged && localVersion != remoteVersion {
        conflicts := conflicts +
          [Conflict(p, LocalOrTombstone(localEntry, baseEntry), LocalOrTombstone(remoteEntry, baseEntry))];
      }
      ListsPlanMore(base, local, remote, paths - todo, before, p, ManifestDiff(upload, download, conflicts));
      assert paths - todo + {p} == paths - (todo - {p});
      todo := todo - {p};
    }
    assert paths - todo == paths;
    d := ManifestDiff(upload, download, conflicts);
    forall p ensures Mentions(d, p) <==> At(local, p) != At(remote, p) {
      MentionedIffDifferent(base, local, remote, d, p);
    }
  }

  lemma MentionedIffDifferent(base: Manifest, local: Manifest, remote: Manifest, d: ManifestDiff, p: Path)
    requires ListsPlan(base, local, remote, base.Keys + local.Keys + remote.Keys, d)
    ensures Mentions(d, p) <==> At(local, p) != At(remote, p)
  {
    if At(local, p) != At(remote, p) {
      match DecisionAt(base, local, remote, p)
      case Up(_) => assert PlannedUpload(base, local, remote, p).value in d.upload;
      case Down(_) => assert PlannedDownload(base, local, remote, p).value in d.download;
      case Clash => assert PlannedConflict(base, local, remote, p).value in d.conflicts;
    }
  }

  /** The next base: the re-fetched manifest, except that a held-back path keeps its old entry or absence. */
  function NextBase(previous: Manifest, refetched: Manifest, held: set<Path>): Manifest {
    map p | p in previous.Keys + refetched.Keys && (if p in held then p in previous else p in refetched)
      :: if p in held then previous[p] else refetched[p]
  }

  lemma NextBaseAt(previous: Manifest, refetched: Manifest, held: set<Path>, p: Path)
    ensures Get(NextBase(previous, refetched, held), p) == if p in held then Get(previous, p) else Get(refetched, p)
  {
  }

  method CheckpointManifest(previous: Manifest, refetched: Manifest, held: set<Path>) returns (next: Manifest)
    ensures next == NextBase(previous, refetched, held)
  {
    next := refetched;
    var todo := held;
    while todo != {}
      invariant todo <= held
      invariant next == NextBase(previous, refetched, held - todo)
      decreases todo
    {
      var p :| p in todo;
      if p in previous {
        next := next[p := previous[p]];
      } else {
        next := next - {p};
      }
      todo := todo - {p};
    }
    assert held - todo == held;
  }
}
