/** A whole cycle, `prepare_sync` and then `complete_sync`, is a run of the protocol, with other devices in between. */
module WholeCycle {
  import opened Types
  import opened Manifests
  import opened SyncRules
  import opened LocalState
  import opened Protocol
  import opened SoloCycle
  import opened Uploads
  import opened Complete
  import opened Refinement
  import Downloads
  import Rounds

  // ---- The diff of a cycle ----------------------------------------------------------------

  /** What `DiffLocalAndRemote` returns for the manifests of the cycle. */
  ghost predicate IsDiffOf(dev: Device, diff: ManifestDiff)
    requires dev.cycle.Some?
  {
    var b, l, r := dev.base, dev.cycle.value.working, dev.cycle.value.remote;
    && OnceEach(diff)
    && (forall a :: a in diff.upload <==> !dev.ignore(a.path) && PlannedUpload(b, l, r, a.path) == Some(a))
    && (forall a :: a in diff.download <==> !dev.ignore(a.path) && PlannedDownload(b, l, r, a.path) == Some(a))
    && (forall x :: x in diff.conflicts <==> !dev.ignore(x.path) && PlannedConflict(b, l, r, x.path) == Some(x))
  }

  function DeletesOf(diff: ManifestDiff): seq<SyncAction> { Rounds.OfKind(diff.download, true) }
  function FetchesOf(diff: ManifestDiff): seq<SyncAction> { Rounds.OfKind(diff.download, false) }

  lemma DownloadIsPlanned(dev: Device, diff: ManifestDiff, a: SyncAction)
    requires dev.cycle.Some? && IsDiffOf(dev, diff) && a in diff.download
    ensures PlanAt(dev, a.path) == Down(a.kind) && (a.kind == Download || a.kind == DeleteLocal)
  {
  }

  lemma PartsAreDistinct(diff: ManifestDiff)
    requires OnceEach(diff)
    ensures Downloads.DistinctPaths(DeletesOf(diff)) && Downloads.DistinctPaths(FetchesOf(diff))
  {
    Rounds.OfKindDistinct(diff.download, true);
    Rounds.OfKindDistinct(diff.download, false);
  }

  // ---- Local deletes ----------------------------------------------------------------------

  ghost function Deleting(w: World, d: DeviceId, p: Path, mid: Disk): World
    requires InCycle(w, d)
  {
    if p in mid then w else PutDevice(w, d, Settle(WriteDisk(w.devices[d], p, None), p))
  }

  ghost function DeleteDeed(d: DeviceId, deletes: seq<SyncAction>, mid: Disk): Deed {
    (i: nat, w: World, w': World) => i < |deletes| && InCycle(w, d) && w' == Deleting(w, d, deletes[i].path, mid)
  }

  function Removed(deletes: seq<SyncAction>, mid: Disk, n: nat): set<Path>
    requires n <= |deletes|
  {
    set i | 0 <= i < n && deletes[i].path !in mid :: deletes[i].path
  }

  /** Nothing held back and no copy yet: the ledger of a cycle that is still downloading. */
  function Loading(disk: Disk, settled: set<Path>): Ledger {
    Ledger(disk, settled, {}, map[], false)
  }

  ghost function DeleteInv(d: DeviceId, dev0: Device, deletes: seq<SyncAction>, mid: Disk): Invariant
    requires dev0.cycle.Some?
  {
    (i: nat, w: World) =>
      i <= |deletes| && Shows(w, d, dev0, Loading(dev0.disk - Removed(deletes, mid, i), Removed(deletes, mid, i)))
  }

  /** The deletes are planned, each once. */
  ghost predicate Deletable(dev0: Device, deletes: seq<SyncAction>)
    requires dev0.cycle.Some?
  {
    && Downloads.DistinctPaths(deletes)
    && forall i :: 0 <= i < |deletes| ==> PlanAt(dev0, deletes[i].path) == Down(DeleteLocal)
  }

  lemma RemovedOneMore(deletes: seq<SyncAction>, mid: Disk, n: nat)
    requires n < |deletes| && Downloads.DistinctPaths(deletes)
    ensures deletes[n].path !in Removed(deletes, mid, n)
    ensures Removed(deletes, mid, n + 1) ==
              Removed(deletes, mid, n) + if deletes[n].path in mid then {} else {deletes[n].path}
  {
  }

  lemma RemovingIsAStep(w: World, d: DeviceId, dev0: Device, disk: Disk, settled: set<Path>, p: Path)
    requires dev0.cycle.Some? && Shows(w, d, dev0, Loading(disk, settled)) && p !in settled
    requires PlanAt(dev0, p) == Down(DeleteLocal)
    ensures var w' := PutDevice(w, d, Settle(WriteDisk(w.devices[d], p, None), p));
            LeadsTo(w, w') && Shows(w', d, dev0, Loading(disk - {p}, settled + {p}))
  {
    SamePlanAt(dev0, w.devices[d], map[], p);
    OneStep(w, RemovedLocal(d, p));
  }

  lemma NextDelete(w: World, d: DeviceId, dev0: Device, deletes: seq<SyncAction>, mid: Disk, i: nat)
    requires dev0.cycle.Some? && Deletable(dev0, deletes) && i < |deletes|
    requires Shows(w, d, dev0, Loading(dev0.disk - Removed(deletes, mid, i), Removed(deletes, mid, i)))
    ensures var w' := Deleting(w, d, deletes[i].path, mid);
            && LeadsTo(w, w')
            && Shows(w', d, dev0, Loading(dev0.disk - Removed(deletes, mid, i + 1), Removed(deletes, mid, i + 1)))
  {
    var p, gone := deletes[i].path, Removed(deletes, mid, i);
    RemovedOneMore(deletes, mid, i);
    if p in mid {
      assert gone + {} == gone;
      StaysPut(w);
    } else {
      RemovingIsAStep(w, d, dev0, dev0.disk - gone, gone, p);
      assert (dev0.disk - gone) - {p} == dev0.disk - (gone + {p});
    }
  }

  lemma DeletesKeep(d: DeviceId, dev0: Device, deletes: seq<SyncAction>, mid: Disk)
    requires dev0.cycle.Some? && Deletable(dev0, deletes)
    ensures IsKept(d, |deletes|, DeleteDeed(d, deletes, mid), DeleteInv(d, dev0, deletes, mid))
  {
    var deed, inv := DeleteDeed(d, deletes, mid), DeleteInv(d, dev0, deletes, mid);
    forall i: nat, w, w' | i < |deletes| && inv(i, w) && deed(i, w, w') ensures inv(i + 1, w') && LeadsTo(w, w') {
      NextDelete(w, d, dev0, deletes, mid, i);
    }
    forall i: nat, w, s: Step | inv(i, w) && s.d != d && Enabled(w, s) ensures inv(i, Do(w, s)) {
      ForeignKeepsLedger(w, d, s);
    }
  }

  lemma DeletesRun(d: DeviceId, dev0: Device, deletes: seq<SyncAction>, mid: Disk, failures: seq<SyncFailure>,
                   h: History)
    requires dev0.cycle.Some? && Deletable(dev0, deletes) && Downloads.Deleted(deletes, dev0.disk, mid, failures)
    requires IsHistory(d, |deletes|, DeleteDeed(d, deletes, mid), h.moves, h.ws)
    requires Shows(h.ws[0], d, dev0, Loading(dev0.disk, {}))
    ensures LeadsTo(h.ws[0], Last(h)) && Shows(Last(h), d, dev0, Loading(mid, Removed(deletes, mid, |deletes|)))
  {
    DeletesKeep(d, dev0, deletes, mid);
    assert Removed(deletes, mid, 0) == {} && dev0.disk - {} == dev0.disk;
    HistoryIsARun(d, |deletes|, DeleteDeed(d, deletes, mid), DeleteInv(d, dev0, deletes, mid), h.moves, h.ws);
    RemovedLeavesMid(deletes, dev0.disk, mid, failures);
  }

  lemma RemovedLeavesMid(deletes: seq<SyncAction>, disk0: Disk, mid: Disk, failures: seq<SyncFailure>)
    requires Downloads.Deleted(deletes, disk0, mid, failures)
    ensures disk0 - Removed(deletes, mid, |deletes|) == mid
  {
    var gone := Removed(deletes, mid, |deletes|);
    forall p | p in disk0 && p !in mid ensures p in gone {
      var i :| 0 <= i < |deletes| && deletes[i].path == p;
    }
  }

  // ---- Fetches ----------------------------------------------------------------------------

  /** A file that arrives is what the server holds at that moment; starting and failing changes no file. */
  ghost function FetchDeed(d: DeviceId, fetches: seq<SyncAction>, steps: seq<Downloads.FetchStep>): Deed {
    (i: nat, w: World, w': World) =>
      i < |steps| && InCycle(w, d) && steps[i].i < |fetches| && IsFetch(d, fetches[steps[i].i].path, steps[i], w, w')
  }

  ghost predicate IsFetch(d: DeviceId, p: Path, step: Downloads.FetchStep, w: World, w': World)
    requires InCycle(w, d)
  {
    match step
    case Arrive(_, file) =>
      Serves(w.files, p, file) && w' == PutDevice(w, d, Settle(WriteDisk(w.devices[d], p, Some(file)), p))
    case _ => w' == w
  }

  function Arrived(fetches: seq<SyncAction>, s: Downloads.State): set<Path> {
    set j | 0 <= j < |fetches| && j < |s.fetches| && s.fetches[j].Written? :: fetches[j].path
  }

  ghost function FetchInv(d: DeviceId, dev0: Device, gone: set<Path>, fetches: seq<SyncAction>,
                          states: seq<Downloads.State>): Invariant
    requires dev0.cycle.Some?
  {
    (i: nat, w: World) =>
      i < |states| && Shows(w, d, dev0, Loading(states[i].disk, gone + Arrived(fetches, states[i])))
  }

  /** The fetches are planned, each once, and none is a path already removed. */
  ghost predicate Fetchable(dev0: Device, gone: set<Path>, fetches: seq<SyncAction>)
    requires dev0.cycle.Some?
  {
    && Downloads.DistinctPaths(fetches)
    && forall i :: 0 <= i < |fetches| ==> PlanAt(dev0, fetches[i].path) == Down(Download) && fetches[i].path !in gone
  }

  lemma FetchingIsAStep(w: World, d: DeviceId, dev0: Device, disk: Disk, settled: set<Path>, p: Path, file: DiskFile)
    requires dev0.cycle.Some? && Shows(w, d, dev0, Loading(disk, settled)) && p !in settled
    requires PlanAt(dev0, p) == Down(Download) && Serves(w.files, p, file)
    ensures var w' := PutDevice(w, d, Settle(WriteDisk(w.devices[d], p, Some(file)), p));
            LeadsTo(w, w') && Shows(w', d, dev0, Loading(disk[p := file], settled + {p}))
  {
    SamePlanAt(dev0, w.devices[d], map[], p);
    OneStep(w, Fetched(d, p, file));
  }

  lemma ArrivedOneMore(fetches: seq<SyncAction>, s: Downloads.State, step: Downloads.FetchStep)
    requires Downloads.DistinctPaths(fetches) && |s.fetches| == |fetches| && Downloads.Enabled(s, step)
    ensures var s', p := Downloads.Do(fetches, s, step), fetches[step.i].path;
            if step.Arrive? then p !in Arrived(fetches, s) && Arrived(fetches, s') == Arrived(fetches, s) + {p}
            else Arrived(fetches, s') == Arrived(fetches, s) && s'.disk == s.disk
  {
    var s', p := Downloads.Do(fetches, s, step), fetches[step.i].path;
    assert s'.fetches[step.i].Written? <==> step.Arrive?;
    assert forall j :: 0 <= j < |fetches| && j != step.i ==> s'.fetches[j] == s.fetches[j] && fetches[j].path != p;
    assert forall q :: q in Arrived(fetches, s') <==> q in Arrived(fetches, s) || (step.Arrive? && q == p);
  }

  lemma NextFetch(w: World, w': World, d: DeviceId, dev0: Device, gone: set<Path>, fetches: seq<SyncAction>,
                  s: Downloads.State, step: Downloads.FetchStep)
    requires dev0.cycle.Some? && Fetchable(dev0, gone, fetches) && |s.fetches| == |fetches| &&
             Downloads.Enabled(s, step)
    requires Shows(w, d, dev0, Loading(s.disk, gone + Arrived(fetches, s))) &&
             IsFetch(d, fetches[step.i].path, step, w, w')
    ensures var s' := Downloads.Do(fetches, s, step);
            LeadsTo(w, w') && Shows(w', d, dev0, Loading(s'.disk, gone + Arrived(fetches, s')))
  {
    var p, settled := fetches[step.i].path, gone + Arrived(fetches, s);
    ArrivedOneMore(fetches, s, step);
    if step.Arrive? {
      FetchingIsAStep(w, d, dev0, s.disk, settled, p, step.file);
      assert settled + {p} == gone + (Arrived(fetches, s) + {p});
    } else {
      StaysPut(w);
    }
  }

  lemma FetchesKeep(d: DeviceId, dev0: Device, gone: set<Path>, fetches: seq<SyncAction>, disk0: Disk,
                    states: seq<Downloads.State>, steps: seq<Downloads.FetchStep>)
    requires dev0.cycle.Some? && Fetchable(dev0, gone, fetches) && Downloads.IsRun(fetches, disk0, states, steps)
    ensures IsKept(d, |steps|, FetchDeed(d, fetches, steps), FetchInv(d, dev0, gone, fetches, states))
  {
    var deed, inv := FetchDeed(d, fetches, steps), FetchInv(d, dev0, gone, fetches, states);
    forall i: nat, w, w' | i < |steps| && inv(i, w) && deed(i, w, w') ensures inv(i + 1, w') && LeadsTo(w, w') {
      NextFetch(w, w', d, dev0, gone, fetches, states[i], steps[i]);
    }
    forall i: nat, w, s: Step | inv(i, w) && s.d != d && Enabled(w, s) ensures inv(i, Do(w, s)) {
      ForeignKeepsLedger(w, d, s);
    }
  }

  lemma FetchesRun(d: DeviceId, dev0: Device, gone: set<Path>, fetches: seq<SyncAction>, disk0: Disk,
                   states: seq<Downloads.State>, steps: seq<Downloads.FetchStep>, h: History)
    requires dev0.cycle.Some? && Fetchable(dev0, gone, fetches) && Downloads.IsRun(fetches, disk0, states, steps)
    requires IsHistory(d, |steps|, FetchDeed(d, fetches, steps), h.moves, h.ws)
    requires Shows(h.ws[0], d, dev0, Loading(disk0, gone))
    ensures LeadsTo(h.ws[0], Last(h))
    ensures Shows(Last(h), d, dev0, Loading(states[|steps|].disk, gone + Arrived(fetches, states[|steps|])))
  {
    FetchesKeep(d, dev0, gone, fetches, disk0, states, steps);
    assert Arrived(fetches, states[0]) == {} && gone + {} == gone;
    HistoryIsARun(d, |steps|, FetchDeed(d, fetches, steps), FetchInv(d, dev0, gone, fetches, states), h.moves, h.ws);
  }

  // ---- The preparation --------------------------------------------------------------------

  /** How a preparation goes, with other devices in between: the deletes, then the fetches. */
  ghost predicate PreparationGoes(w: World, d: DeviceId, diff: ManifestDiff, prep: Rounds.Preparation, h1: History,
                                  h2: History) {
    && InCycle(w, d) && IsDiffOf(w.devices[d], diff)
    && Rounds.Prepares(diff, prep) && prep.disk0 == w.devices[d].disk
    && IsHistory(d, |DeletesOf(diff)|, DeleteDeed(d, DeletesOf(diff), prep.mid), h1.moves, h1.ws) && h1.ws[0] == w
    && IsHistory(d, |prep.steps|, FetchDeed(d, FetchesOf(diff), prep.steps), h2.moves, h2.ws) && h2.ws[0] == Last(h1)
  }

  /** The paths a preparation has dealt with. */
  ghost function Dealt(diff: ManifestDiff, prep: Rounds.Preparation): set<Path>
    requires Rounds.Prepares(diff, prep)
  {
    Removed(DeletesOf(diff), prep.mid, |DeletesOf(diff)|) + Arrived(FetchesOf(diff), Rounds.Last(prep))
  }

  lemma PartsArePlanned(dev: Device, diff: ManifestDiff, mid: Disk)
    requires dev.cycle.Some? && IsDiffOf(dev, diff)
    ensures Deletable(dev, DeletesOf(diff))
    ensures Fetchable(dev, Removed(DeletesOf(diff), mid, |DeletesOf(diff)|), FetchesOf(diff))
  {
    var deletes, fetches := DeletesOf(diff), FetchesOf(diff);
    PartsAreDistinct(diff);
    forall i | 0 <= i < |deletes| ensures PlanAt(dev, deletes[i].path) == Down(DeleteLocal) {
      assert deletes[i] in deletes;
      DownloadIsPlanned(dev, diff, deletes[i]);
    }
    forall i | 0 <= i < |fetches| ensures PlanAt(dev, fetches[i].path) == Down(Download) {
      assert fetches[i] in fetches;
      DownloadIsPlanned(dev, diff, fetches[i]);
    }
  }

  /** The preparation is a run, and leaves the disk it says and every path it dealt with settled. */
  lemma PreparationRuns(w: World, d: DeviceId, diff: ManifestDiff, prep: Rounds.Preparation, h1: History, h2: History)
    requires PreparationGoes(w, d, diff, prep, h1, h2) && LedgerOf(w, d) == Loading(w.devices[d].disk, {})
    ensures LeadsTo(w, Last(h2))
    ensures Shows(Last(h2), d, w.devices[d], Loading(Rounds.Last(prep).disk, Dealt(diff, prep)))
  {
    var dev, deletes, fetches := w.devices[d], DeletesOf(diff), FetchesOf(diff);
    var gone := Removed(deletes, prep.mid, |deletes|);
    PartsArePlanned(dev, diff, prep.mid);
    DeletesRun(d, dev, deletes, prep.mid, prep.deleteFailures, h1);
    FetchesRun(d, dev, gone, fetches, prep.mid, prep.states, prep.steps, h2);
    Onward(w, Last(h1), Last(h2));
  }

  lemma UploadsArePlanned(dev: Device, dev': Device, diff: ManifestDiff, a: SyncAction)
    requires dev.cycle.Some? && dev'.cycle.Some? && SamePlan(dev, dev') && IsDiffOf(dev, diff)
    ensures a in diff.upload <==>
              && PlanAt(dev', a.path).Up?
              && PlannedUpload(dev'.base, dev'.cycle.value.working, dev'.cycle.value.remote, a.path) == Some(a)
  {
  }

  lemma ConflictsArePlanned(dev: Device, dev': Device, diff: ManifestDiff, x: Conflict)
    requires dev.cycle.Some? && dev'.cycle.Some? && SamePlan(dev, dev') && IsDiffOf(dev, diff)
    ensures x in diff.conflicts <==>
              && PlanAt(dev', x.path) == Clash
              && PlannedConflict(dev'.base, dev'.cycle.value.working, dev'.cycle.value.remote, x.path) == Some(x)
  {
  }

  lemma FailuresArePlanned(dev: Device, diff: ManifestDiff, prep: Rounds.Preparation, f: SyncFailure)
    requires dev.cycle.Some? && IsDiffOf(dev, diff) && Rounds.Prepares(diff, prep) &&
             f in Rounds.PlanOf(diff, prep).failures
    ensures PlanAt(dev, f.path).Down?
  {
    var deletes, fetches := DeletesOf(diff), FetchesOf(diff);
    if f in prep.deleteFailures {
      var i :| 0 <= i < |deletes| && deletes[i].path == f.path;
      assert deletes[i] in deletes;
      DownloadIsPlanned(dev, diff, deletes[i]);
    } else {
      var i :| 0 <= i < |fetches| && fetches[i].path == f.path;
      assert fetches[i] in fetches;
      DownloadIsPlanned(dev, diff, fetches[i]);
    }
  }

  lemma PlanIsPlanOf(dev: Device, dev': Device, diff: ManifestDiff, prep: Rounds.Preparation)
    requires dev.cycle.Some? && dev'.cycle.Some? && SamePlan(dev, dev') && IsDiffOf(dev, diff) &&
             Rounds.Prepares(diff, prep)
    ensures IsPlanOf(dev', Rounds.PlanOf(diff, prep))
  {
    var plan := Rounds.PlanOf(diff, prep);
    forall a: SyncAction
      ensures a in plan.upload <==>
                && PlanAt(dev', a.path).Up?
                && PlannedUpload(dev'.base, dev'.cycle.value.working, dev'.cycle.value.remote, a.path) == Some(a)
    {
      UploadsArePlanned(dev, dev', diff, a);
    }
    forall x: Conflict
      ensures x in plan.conflicts <==>
                && PlanAt(dev', x.path) == Clash
                && PlannedConflict(dev'.base, dev'.cycle.value.working, dev'.cycle.value.remote, x.path) == Some(x)
    {
      ConflictsArePlanned(dev, dev', diff, x);
    }
    forall f | f in plan.failures ensures PlanAt(dev', f.path).Down? {
      FailuresArePlanned(dev, diff, prep, f);
      SamePlanAt(dev, dev', map[], f.path);
    }
  }

  lemma DealtIsPlanned(dev: Device, diff: ManifestDiff, prep: Rounds.Preparation, p: Path)
    requires dev.cycle.Some? && IsDiffOf(dev, diff) && Rounds.Prepares(diff, prep) && p in Dealt(diff, prep)
    ensures PlanAt(dev, p).Down?
  {
    PartsArePlanned(dev, diff, prep.mid);
  }

  /** Without a fatal failure every planned download is dealt with or a failure of the plan. */
  lemma DealtOrFailed(dev: Device, diff: ManifestDiff, prep: Rounds.Preparation, p: Path)
    requires dev.cycle.Some? && IsDiffOf(dev, diff) && Rounds.Prepares(diff, prep)
    requires !AnyFatal(Rounds.PlanOf(diff, prep).failures) && PlanAt(dev, p).Down?
    ensures p in Dealt(diff, prep) || exists f :: f in Rounds.PlanOf(diff, prep).failures && f.path == p
  {
    var a := PlannedDownload(dev.base, dev.cycle.value.working, dev.cycle.value.remote, p).value;
    assert a in diff.download && a.path == p;
    if a.kind == DeleteLocal {
      DeletedOrFailed(diff, prep, a);
    } else {
      ArrivedOrFailed(diff, prep, a);
    }
  }

  lemma DeletedOrFailed(diff: ManifestDiff, prep: Rounds.Preparation, a: SyncAction)
    requires Rounds.Prepares(diff, prep) && a in DeletesOf(diff)
    ensures a.path in Dealt(diff, prep) || exists f :: f in Rounds.PlanOf(diff, prep).failures && f.path == a.path
  {
    var deletes, f := DeletesOf(diff), SyncFailure(a.path, DeleteLocal, false);
    var i :| 0 <= i < |deletes| && deletes[i] == a;
    if a.path in prep.mid {
      assert f in prep.deleteFailures && f in Rounds.PlanOf(diff, prep).failures;
    } else {
      assert a.path in Removed(deletes, prep.mid, |deletes|);
    }
  }

  lemma ArrivedOrFailed(diff: ManifestDiff, prep: Rounds.Preparation, a: SyncAction)
    requires OnceEach(diff) && Rounds.Prepares(diff, prep) && !AnyFatal(Rounds.PlanOf(diff, prep).failures)
    requires a in FetchesOf(diff)
    ensures a.path in Dealt(diff, prep) || exists f :: f in Rounds.PlanOf(diff, prep).failures && f.path == a.path
  {
    var fetches, s, f := FetchesOf(diff), Rounds.Last(prep), SyncFailure(a.path, Download, false);
    var failures := Rounds.PlanOf(diff, prep).failures;
    assert forall g :: g in prep.fetchFailures ==> g in failures;
    PartsAreDistinct(diff);
    Downloads.FetchesAreAccountedFor(fetches, prep.mid, prep.states, prep.steps, prep.fetchFailures);
    var i :| 0 <= i < |fetches| && fetches[i] == a;
    if s.fetches[i].Written? {
      assert a.path in Arrived(fetches, s);
    } else {
      assert f in failures;
    }
  }

  /**
   * From the snapshot to the last download, over every interleaving of the fetches and of other
   * devices: the preparation is a run of the protocol that ends where a round may begin.
   */
  lemma PreparationIsARun(w0: World, d: DeviceId, now: nat, diff: ManifestDiff, prep: Rounds.Preparation, h1: History,
                          h2: History)
    requires Enabled(w0, Begin(d, now)) && PreparationGoes(Do(w0, Begin(d, now)), d, diff, prep, h1, h2)
    ensures LeadsTo(w0, Last(h2)) && AfterDownloads(Last(h2), d, Rounds.PlanOf(diff, prep))
    ensures Last(h2).devices[d].disk == Rounds.Last(prep).disk
    ensures SamePlan(Do(w0, Begin(d, now)).devices[d], Last(h2).devices[d])
  {
    var w, w' := Do(w0, Begin(d, now)), Last(h2);
    OneStep(w0, Begin(d, now));
    PreparationRuns(w, d, diff, prep, h1, h2);
    Onward(w0, w, w');
    AfterDownloadsFollows(w.devices[d], w', d, diff, prep);
  }

  lemma AfterDownloadsFollows(dev: Device, w': World, d: DeviceId, diff: ManifestDiff, prep: Rounds.Preparation)
    requires dev.cycle.Some? && IsDiffOf(dev, diff) && Rounds.Prepares(diff, prep)
    requires Shows(w', d, dev, Loading(Rounds.Last(prep).disk, Dealt(diff, prep)))
    ensures AfterDownloads(w', d, Rounds.PlanOf(diff, prep))
  {
    var dev', plan := w'.devices[d], Rounds.PlanOf(diff, prep);
    PlanIsPlanOf(dev, dev', diff, prep);
    forall p | p in Dealt(diff, prep) ensures PlanAt(dev', p).Down? {
      DealtIsPlanned(dev, diff, prep, p);
      SamePlanAt(dev, dev', map[], p);
    }
    if !AnyFatal(plan.failures) {
      forall p | PlanAt(dev', p).Down?
        ensures p in Dealt(diff, prep) || exists f :: f in plan.failures && f.path == p
      {
        SamePlanAt(dev, dev', map[], p);
        DealtOrFailed(dev, diff, prep, p);
      }
    }
  }

  // ---- The cycle --------------------------------------------------------------------------

  /** How the whole cycle goes: the preparation, then the round on the plan, the base and the disk it leaves. */
  ghost predicate CycleGoes(w: World, d: DeviceId, diff: ManifestDiff, prep: Rounds.Preparation, rd: Rounds.Round,
                            executed: nat -> bool, clock: nat -> nat, hs: seq<History>) {
    && |hs| == 5 && PreparationGoes(w, d, diff, prep, hs[0], hs[1])
    && Rounds.Runs(Rounds.PlanOf(diff, prep), w.devices[d].base, Rounds.Last(prep).disk, rd)
    && RoundGoes(d, Rounds.PlanOf(diff, prep), rd.resolutions, rd.env, rd.result, rd.g, executed, clock, hs[2], hs[3],
                 hs[4])
    && hs[2].ws[0] == Last(hs[1])
    && CopiesHaveRoom(w, d, Rounds.PlanOf(diff, prep), rd.resolutions)
  }

  /** What the protocol's run ends with when a round is over: the round's disk, hold-back set, fatal flag and base. */
  ghost predicate EndsLike(w: World, d: DeviceId, rd: Rounds.Round) {
    && InCycle(w, d) && w.devices[d].disk == rd.disk && w.devices[d].cycle.value.held == rd.g.held
    && (w.devices[d].cycle.value.fatal <==> AnyFatal(rd.result.failures))
    && (Checkpointed(rd.env, rd.result) && rd.env.refetched == Some(w.files) ==>
          Enabled(w, Checkpoint(d)) && Do(w, Checkpoint(d)).devices[d].base == rd.base)
  }

  lemma RoundFollows(w: World, d: DeviceId, plan: SyncPlan, rd: Rounds.Round, executed: nat -> bool, clock: nat -> nat,
                     h1: History, h2: History, h3: History)
    requires AfterDownloads(w, d, plan) && CopiesHaveRoom(w, d, plan, rd.resolutions)
    requires Rounds.Runs(plan, w.devices[d].base, w.devices[d].disk, rd)
    requires RoundGoes(d, plan, rd.resolutions, rd.env, rd.result, rd.g, executed, clock, h1, h2, h3) && h1.ws[0] == w
    ensures LeadsTo(w, Last(h3)) && EndsLike(Last(h3), d, rd)
  {
    RoundIsARun(w, d, plan, rd.resolutions, rd.env, rd.result, rd.base, rd.disk, rd.g, rd.batches, executed, clock,
                h1, h2, h3);
  }

  lemma RoomStays(w: World, w': World, d: DeviceId, plan: SyncPlan, resolutions: seq<Resolution>)
    requires InCycle(w, d) && InCycle(w', d) && SamePlan(w.devices[d], w'.devices[d])
    requires CopiesHaveRoom(w, d, plan, resolutions)
    ensures CopiesHaveRoom(w', d, plan, resolutions)
  {
  }

  /**
   * One whole cycle with one round of completion, other devices' steps anywhere in it: a run of the
   * protocol from the idle device to the same disk, hold-back set and fatal flag, and, when the round
   * checks in over the rows it then finds, on to the same base.
   */
  lemma CycleIsARun(w0: World, d: DeviceId, now: nat, diff: ManifestDiff, prep: Rounds.Preparation, rd: Rounds.Round,
                    executed: nat -> bool, clock: nat -> nat, hs: seq<History>)
    requires Enabled(w0, Begin(d, now)) && CycleGoes(Do(w0, Begin(d, now)), d, diff, prep, rd, executed, clock, hs)
    ensures LeadsTo(w0, Last(hs[4])) && EndsLike(Last(hs[4]), d, rd)
  {
    var w1, w2, w' := Do(w0, Begin(d, now)), Last(hs[1]), Last(hs[4]);
    var plan := Rounds.PlanOf(diff, prep);
    PreparationIsARun(w0, d, now, diff, prep, hs[0], hs[1]);
    RoomStays(w1, w2, d, plan, rd.resolutions);
    RoundFollows(w2, d, plan, rd, executed, clock, hs[2], hs[3], hs[4]);
    Onward(w0, w2, w');
  }

  // ---- A preparation that meets the hypotheses --------------------------------------------

  ghost const FETCH: SyncAction := SyncAction("a", Download, None, Some(PUSHED["a"]))
  ghost const FETCH_DIFF: ManifestDiff := ManifestDiff([], [FETCH], [])

  /** An idle device with nothing on disk; the server has one file. */
  ghost function Latecomer(): World {
    World(PUSHED, map[0 := Device(map[], map[], Nobody, None, {})])
  }

  ghost function Fetching(): Rounds.Preparation {
    Rounds.Preparation(map[], map[], [],
      [Downloads.State([Downloads.Waiting], false, map[]), Downloads.State([Downloads.InFlight], false, map[]),
       Downloads.State([Downloads.Written(NEW_FILE)], false, map["a" := NEW_FILE])],
      [Downloads.Start(0), Downloads.Arrive(0, NEW_FILE)], [])
  }

  lemma LatecomerHasDiff()
    ensures Enabled(Latecomer(), Begin(0, 0))
    ensures var w := Do(Latecomer(), Begin(0, 0));
            InCycle(w, 0) && w.files == PUSHED && IsDiffOf(w.devices[0], FETCH_DIFF)
  {
    var dev := Do(Latecomer(), Begin(0, 0)).devices[0];
    var c := dev.cycle.value;
    assert c.working == map[];
    assert PlannedDownload(dev.base, c.working, c.remote, "a") == Some(FETCH);
    forall p | p != "a" ensures DecisionAt(dev.base, c.working, c.remote, p) == Nothing {
    }
  }

  lemma PartsOfFetch()
    ensures DeletesOf(FETCH_DIFF) == [] && FetchesOf(FETCH_DIFF) == [FETCH]
  {
    var one := [FETCH];
    assert one[..|one| - 1] == [] && one[|one| - 1] == FETCH && FETCH.kind == Download;
    assert Rounds.OfKind([], true) == [] && Rounds.OfKind([], false) == [];
    assert Rounds.OfKind(one, true) == [] && Rounds.OfKind(one, false) == [] + [FETCH];
  }

  lemma FetchingPrepares()
    ensures Rounds.Prepares(FETCH_DIFF, Fetching())
  {
    PartsOfFetch();
    var prep := Fetching();
    assert seq(1, _ => Downloads.Waiting) == [Downloads.Waiting];
    assert Downloads.Busy([Downloads.Waiting]) == 0 by {
      assert [Downloads.Waiting][..0] == [];
    }
    assert Downloads.IsRun([FETCH], map[], prep.states, prep.steps);
  }

  lemma TwoDeeds(d: DeviceId, deed: Deed, w: World, v: World, u: World)
    requires deed(0, w, v) && deed(1, v, u)
    ensures IsHistory(d, 2, deed, [Own, Own], [w, v, u])
  {
    var moves := [Own, Own];
    assert OwnCount(moves, 0) == 0 && OwnCount(moves, 1) == 1 && OwnCount(moves, 2) == 2;
    assert IsMove(d, deed, 0, Own, w, v) && IsMove(d, deed, 1, Own, v, u);
  }

  /** The hypotheses of the preparation theorem are met by a cycle that fetches a file. */
  lemma AFileArrives() returns (w': World)
    ensures LeadsTo(Latecomer(), w') && AfterDownloads(w', 0, SyncPlan([], [FETCH], [], []))
    ensures w'.devices[0].disk == map["a" := NEW_FILE]
  {
    LatecomerHasDiff();
    FetchingPrepares();
    PartsOfFetch();
    var w, steps := Do(Latecomer(), Begin(0, 0)), Fetching().steps;
    w' := PutDevice(w, 0, Settle(WriteDisk(w.devices[0], "a", Some(NEW_FILE)), "a"));
    var deed := FetchDeed(0, [FETCH], steps);
    assert IsFetch(0, "a", steps[0], w, w) && IsFetch(0, "a", steps[1], w, w');
    assert deed(0, w, w) && deed(1, w, w');
    TwoDeeds(0, deed, w, w, w');
    PreparationIsARun(Latecomer(), 0, 0, FETCH_DIFF, Fetching(), History([], [w]), History([Own, Own], [w, w, w']));
  }
}
