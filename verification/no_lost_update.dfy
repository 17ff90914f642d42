/** Safety over whole runs: an upload only ever replaces a version its own device has had. */
module NoLostUpdate {
  import opened Types
  import opened Manifests
  import opened LocalState
  import opened ServerGate
  import opened Protocol

  /** A run from an empty household: any server contents, devices join one by one. */
  ghost predicate IsRun(ws: seq<World>, steps: seq<Step>) {
    && |ws| == |steps| + 1
    && ws[0].devices == map[] && LiveHashes(ws[0].files)
    && forall k {:trigger steps[k]} :: 0 <= k < |steps| ==> Enabled(ws[k], steps[k]) && ws[k + 1] == Do(ws[k], steps[k])
  }

  ghost predicate IsUndisturbed(ws: seq<World>, steps: seq<Step>)
    requires IsRun(ws, steps)
  {
    forall k :: 0 <= k < |steps| ==> Undisturbed(ws[k], steps[k])
  }

  /**
   * The step is an upload or remote delete planned without a conflict, the server accepts it, and a live
   * version goes.
   */
  ghost predicate ReplacesLive(w: World, s: Step)
    requires Enabled(w, s)
  {
    s.Send? && Writes(w.files, UploadOp(w.devices[s.d], s.p)) && At(w.files, s.p).Present?
  }

  ghost predicate OnDiskInCycle(w: World, d: DeviceId, p: Path, h: Hash) {
    InCycle(w, d) && OnDisk(w.devices[d].disk, p) == Present(h)
  }

  /**
   * No lost update: whatever the interleaving, the failures and the lost replies, a version that
   * a plain upload or remote delete replaces was on that device's own disk during a cycle of its own.
   */
  lemma RunsLoseNothing(ws: seq<World>, steps: seq<Step>, k: nat)
    requires IsRun(ws, steps) && IsUndisturbed(ws, steps) && k < |steps|
    requires ReplacesLive(ws[k], steps[k])
    ensures exists j :: 0 <= j <= k && OnDiskInCycle(ws[j], steps[k].d, steps[k].p, At(ws[k].files, steps[k].p).hash)
  {
    RunKeepsInv(ws, steps, k);
    ReplacesWhatItHad(ws[k], steps[k]);
    HadWasOnDisk(ws, steps, k, steps[k].d, steps[k].p, At(ws[k].files, steps[k].p).hash);
  }

  lemma {:induction false} RunKeepsInv(ws: seq<World>, steps: seq<Step>, k: nat)
    requires IsRun(ws, steps) && IsUndisturbed(ws, steps) && k <= |steps|
    ensures Inv(ws[k])
  {
    if k > 0 {
      RunKeepsInv(ws, steps, k - 1);
      StepKeepsInv(ws[k - 1], steps[k - 1]);
    }
  }

  lemma ReplacesWhatItHad(w: World, s: Step)
    requires Inv(w) && Enabled(w, s) && Undisturbed(w, s) && ReplacesLive(w, s)
    ensures (s.p, At(w.files, s.p).hash) in w.devices[s.d].had
  {
    var dev := w.devices[s.d];
    var c := dev.cycle.value;
    assert Grounded(dev) && Tracks(dev, w.files);
    assert HadOrGone(dev.had, s.p, At(dev.base, s.p));
    assert w.files[s.p].hash == UploadOp(dev, s.p).parent;
    assert s.p in c.remote && w.files[s.p].hash == c.remote[s.p].hash;
  }

  lemma {:induction false} HadWasOnDisk(ws: seq<World>, steps: seq<Step>, k: nat, d: DeviceId, p: Path, h: Hash)
    requires IsRun(ws, steps) && k <= |steps|
    requires d in ws[k].devices && (p, h) in ws[k].devices[d].had
    ensures SeenBy(ws, k, d, p, h)
  {
    if k > 0 {
      if d in ws[k - 1].devices && (p, h) in ws[k - 1].devices[d].had {
        HadWasOnDisk(ws, steps, k - 1, d, p, h);
        SeenLater(ws, k - 1, d, p, h);
      } else {
        StepOf(ws, steps, k - 1);
        NewlyHad(ws[k - 1], steps[k - 1], ws[k], d, p, h);
      }
    }
  }

  ghost predicate SeenBy(ws: seq<World>, k: nat, d: DeviceId, p: Path, h: Hash)
    requires k < |ws|
  {
    exists j :: 0 <= j <= k && OnDiskInCycle(ws[j], d, p, h)
  }

  lemma SeenLater(ws: seq<World>, k: nat, d: DeviceId, p: Path, h: Hash)
    requires k + 1 < |ws| && SeenBy(ws, k, d, p, h)
    ensures SeenBy(ws, k + 1, d, p, h)
  {
  }

  lemma StepOf(ws: seq<World>, steps: seq<Step>, k: nat)
    requires IsRun(ws, steps) && k < |steps|
    ensures Enabled(ws[k], steps[k]) && ws[k + 1] == Do(ws[k], steps[k])
  {
  }

  lemma NewlyHad(w: World, s: Step, w': World, d: DeviceId, p: Path, h: Hash)
    requires Enabled(w, s) && w' == Do(w, s)
    requires d in w'.devices && (p, h) in w'.devices[d].had
    requires d !in w.devices || (p, h) !in w.devices[d].had
    ensures OnDiskInCycle(w', d, p, h)
  {
  }
}
