/** Edits on a device's own disk: what a cycle writes it writes without looking, and exactly when that loses an edit. */
module EditLimits {
  import opened Types
  import opened Manifests
  import opened SyncRules
  import opened LocalState
  import opened ServerGate
  import opened Protocol
  import opened NoLostUpdate

  /** The path a step of the cycle writes on its own disk, and the version it leaves there. */
  datatype Landing = Landing(path: Path, version: Version)

  ghost function Lands(s: Step): Option<Landing> {
    match s
    case Fetched(_, p, copy) => Some(Landing(p, Present(copy.hash)))
    case RemovedLocal(_, p) => Some(Landing(p, Gone))
    case TakeRemote(_, p, file) => Some(Landing(p, if file.Some? then Present(file.value.hash) else Gone))
    case CopyRemote(_, p, copy) => Some(Landing(ConflictCopyPath(p), Present(copy.hash)))
    case _ => None
  }

  ghost function VersionAt(w: World, d: DeviceId, q: Path): Version
    requires d in w.devices
  {
    OnDisk(w.devices[d].disk, q)
  }

  /** The step writes something else over what is at `q`. */
  ghost predicate WritesOver(w: World, s: Step, d: DeviceId, q: Path) {
    && s.d == d && d in w.devices && Lands(s).Some? && Lands(s).value.path == q
    && Lands(s).value.version != VersionAt(w, d, q)
  }

  ghost predicate Edits(s: Step, d: DeviceId, q: Path) {
    s.Edit? && s.d == d && s.p == q
  }

  /** Only the device's own cycle and its user's edits change its disk, and what a cycle writes it has had. */
  lemma DiskAfterStep(w: World, s: Step, d: DeviceId, q: Path)
    requires Enabled(w, s) && d in w.devices && !Edits(s, d, q)
    ensures d in Do(w, s).devices
    ensures VersionAt(Do(w, s), d, q) ==
              if s.d == d && Lands(s).Some? && Lands(s).value.path == q
              then Lands(s).value.version
              else VersionAt(w, d, q)
  {
    if s.d != d {
      OtherDisk(w, s, d);
    }
  }

  /** The same disk and the same versions had. */
  ghost predicate SameFiles(w: World, w': World, d: DeviceId)
    requires d in w.devices
  {
    d in w'.devices && w'.devices[d].disk == w.devices[d].disk && w'.devices[d].had == w.devices[d].had
  }

  lemma OtherDisk(w: World, s: Step, d: DeviceId)
    requires Enabled(w, s) && d in w.devices && s.d != d
    ensures SameFiles(w, Do(w, s), d)
  {
    if s.Send? {
      OtherExecute(w, s.d, UploadOp(w.devices[s.d], s.p), s.now, s.answered, d);
    } else if s.SendKept? {
      OtherExecute(w, s.d, KeptOp(w.devices[s.d], s.p), s.now, s.answered, d);
    } else if s.SendCopy? {
      OtherExecute(w, s.d, CopyOp(w.devices[s.d], s.p), s.now, s.answered, d);
    } else {
      OtherLocal(w, s, d);
    }
  }

  lemma OtherExecute(w: World, e: DeviceId, op: Op, now: nat, answered: bool, d: DeviceId)
    requires InCycle(w, e) && d in w.devices && e != d
    ensures SameFiles(w, Execute(w, e, op, now, answered), d)
  {
  }

  lemma OtherLocal(w: World, s: Step, d: DeviceId)
    requires Enabled(w, s) && d in w.devices && s.d != d && !s.Send? && !s.SendKept? && !s.SendCopy?
    ensures SameFiles(w, Do(w, s), d)
  {
  }

  lemma HadGrows(w: World, s: Step, d: DeviceId)
    requires Enabled(w, s) && d in w.devices
    ensures d in Do(w, s).devices && w.devices[d].had <= Do(w, s).devices[d].had
  {
    if s.d != d {
      OtherDisk(w, s, d);
    }
  }

  lemma LandedIsHad(w: World, s: Step, h: Hash)
    requires Enabled(w, s) && Lands(s).Some? && Lands(s).value.version == Present(h)
    ensures s.d in Do(w, s).devices && (Lands(s).value.path, h) in Do(w, s).devices[s.d].had
  {
  }

  /** The version at `q` is one no cycle of the device has seen there or put there. */
  ghost predicate Unseen(w: World, d: DeviceId, q: Path, h: Hash) {
    d in w.devices && VersionAt(w, d, q) == Present(h) && (q, h) !in w.devices[d].had
  }

  ghost predicate NoOtherEdit(steps: seq<Step>, j: nat, k: nat, d: DeviceId, q: Path)
    requires j <= k <= |steps|
  {
    forall i :: j <= i < k ==> !Edits(steps[i], d, q)
  }

  /** Some step in between writes over the file. */
  ghost predicate WrittenOver(ws: seq<World>, steps: seq<Step>, j: nat, k: nat, d: DeviceId, q: Path)
    requires j <= k <= |steps| <= |ws|
  {
    exists i :: j <= i < k && WritesOver(ws[i], steps[i], d, q)
  }

  lemma WrittenOverOneMore(ws: seq<World>, steps: seq<Step>, j: nat, k: nat, d: DeviceId, q: Path)
    requires j <= k < |steps| <= |ws|
    ensures WrittenOver(ws, steps, j, k + 1, d, q) <==>
              WrittenOver(ws, steps, j, k, d, q) || WritesOver(ws[k], steps[k], d, q)
  {
  }

  /** One more step of a run: an unseen version is gone exactly when it was gone before or is written over now. */
  lemma StaysIff(w: World, s: Step, d: DeviceId, q: Path, h: Hash)
    requires Enabled(w, s) && d in w.devices && !Edits(s, d, q)
    requires d in Do(w, s).devices && (q, h) !in Do(w, s).devices[d].had
    ensures VersionAt(Do(w, s), d, q) == Present(h) <==> VersionAt(w, d, q) == Present(h) && !WritesOver(w, s, d, q)
  {
    DiskAfterStep(w, s, d, q);
    if s.d == d && Lands(s) == Some(Landing(q, Present(h))) {
      LandedIsHad(w, s, h);
    }
  }

  /**
   * Whatever happens in a run after an edit, as long as the user leaves the file alone: the device
   * has seen the edited version in a cycle, or it is still on disk exactly when no download, local
   * delete, remote side or conflict copy was written over it.
   */
  lemma {:induction false} EditStaysIff(ws: seq<World>, steps: seq<Step>, j: nat, k: nat, d: DeviceId, q: Path, h: Hash)
    requires IsRun(ws, steps) && j <= k <= |steps| && NoOtherEdit(steps, j, k, d, q)
    requires d in ws[j].devices && VersionAt(ws[j], d, q) == Present(h)
    ensures d in ws[k].devices
    ensures (q, h) !in ws[k].devices[d].had ==>
              (VersionAt(ws[k], d, q) == Present(h) <==> !WrittenOver(ws, steps, j, k, d, q))
  {
    if j < k {
      EditStaysIff(ws, steps, j, k - 1, d, q, h);
      StepOf(ws, steps, k - 1);
      HadGrows(ws[k - 1], steps[k - 1], d);
      WrittenOverOneMore(ws, steps, j, k - 1, d, q);
      if (q, h) !in ws[k].devices[d].had {
        StaysIff(ws[k - 1], steps[k - 1], d, q, h);
      }
    }
  }

  /** What a cycle can lose that way was put there after its walk: the walk shows something else. */
  lemma LostEditIsLaterThanTheWalk(w: World, s: Step, d: DeviceId, q: Path, h: Hash)
    requires Inv(w) && Enabled(w, s) && WritesOver(w, s, d, q) && Unseen(w, d, q, h) && !w.devices[d].ignore(q)
    ensures InCycle(w, d) && At(w.devices[d].cycle.value.working, q) != Present(h)
  {
    assert Grounded(w.devices[d]);
  }

  // ---- An edit that is lost ---------------------------------------------------------------

  const OLD := DiskFile("h", 0, 0)
  const MINE := DiskFile("e", 0, 0)
  const THEIRS := DiskFile("k", 0, 0)

  ghost function Nobody(p: Path): bool { false }

  ghost function Row(h: Hash): Manifest {
    map["a" := FileEntry(h, 0, 0, false, "a")]
  }

  /** The cycle has planned to fetch `a`, and then the file is edited. */
  ghost function Planned(disk: Disk): World {
    World(Row("k"), map[0 := Device(disk, Row("h"), Nobody,
                                    Some(Cycle(Row("h"), Row("k"), {}, {}, map[], false, {}, {})), {("a", "h")})])
  }

  lemma PlannedIsSound(disk: Disk)
    ensures Inv(Planned(disk)) && PlanAt(Planned(disk).devices[0], "a") == Down(Download)
  {
    var dev := Planned(disk).devices[0];
    forall p | p != "a" ensures At(Row("h"), p) == At(Row("k"), p) == Gone {
    }
    assert Grounded(dev) && Tracks(dev, Row("k"));
  }

  /** The edit is nowhere any more: not on disk, not on the server, and no cycle ever saw it. */
  lemma AnEditIsLost()
    ensures var w, edit, fetch := Planned(map["a" := OLD]), Edit(0, "a", Some(MINE)), Fetched(0, "a", THEIRS);
            && Inv(w) && Enabled(w, edit) && Unseen(Do(w, edit), 0, "a", "e") && Enabled(Do(w, edit), fetch)
            && var w' := Do(Do(w, edit), fetch);
               VersionAt(w', 0, "a") == At(w'.files, "a") == Present("k") && ("a", "e") !in w'.devices[0].had
  {
    var w := Planned(map["a" := OLD]);
    PlannedIsSound(map["a" := OLD]);
    assert Do(w, Edit(0, "a", Some(MINE))) == Planned(map["a" := MINE]) by {
      assert (map["a" := OLD])["a" := MINE] == map["a" := MINE];
      assert Do(w, Edit(0, "a", Some(MINE))).devices == Planned(map["a" := MINE]).devices;
    }
    PlannedIsSound(map["a" := MINE]);
  }
}
