/** A cycle that stops anywhere is resumed exactly where it stopped. */
module Resume {
  import opened Types
  import opened Manifests
  import opened LocalState
  import opened Protocol
  import opened SoloCycle

  /** The cycle's end: its checkpoint, or none because it failed, was skipped or crashed. */
  ghost predicate Ends(w: World, d: DeviceId, end: Step) {
    end.d == d && (end.Checkpoint? || end.Quit?) && Enabled(w, end)
  }

  /** A whole cycle of device `d`, from the idle world `w0` to the idle world `Do(ws[|steps|], end)`. */
  ghost predicate SoloRun(w0: World, now: nat, ws: seq<World>, steps: seq<Step>, end: Step, d: DeviceId,
                          choices: Choices) {
    && Enabled(w0, Begin(d, now))
    && SoloSteps(ws, steps, d, choices)
    && ws[0] == Do(w0, Begin(d, now))
    && Ends(ws[|steps|], d, end)
  }

  ghost function NextCycle(w: World, d: DeviceId, end: Step, later: nat): Device
    requires Ends(w, d, end)
  {
    Do(Do(w, end), Begin(d, later)).devices[d]
  }

  /**
   * Exact resume. After any part of the plan, with any failures and lost replies, and whether or
   * not the checkpoint was written, the next cycle plans exactly what did not take effect: the
   * same decision, sent to the server as the same request.
   */
  lemma ResumesExactly(w0: World, now: nat, ws: seq<World>, steps: seq<Step>, end: Step, d: DeviceId, choices: Choices,
                       later: nat, p: Path)
    requires SoloRun(w0, now, ws, steps, end, d, choices)
    ensures InCycle(ws[0], d) && InCycle(ws[|steps|], d)
    ensures var first, c := ws[0].devices[d], ws[|steps|].devices[d].cycle.value;
            var next := NextCycle(ws[|steps|], d, end, later);
            && (p !in c.copies ==>
                  && PlanAt(next, p) == (if p in c.landed then Nothing else PlanAt(first, p))
                  && (PlanAt(next, p).Up? ==> UploadOp(next, p) == UploadOp(first, p))
                  && (PlanAt(next, p) == Clash ==> KeptOp(next, p) == KeptOp(first, p)))
            && (p in c.copies ==>
                  PlanAt(next, p) == if p in c.landed || first.ignore(p) then Nothing else Up(Upload))
  {
    AtTheEnd(w0, now, ws, steps, end, d, choices);
    ResumesFrom(ws[|steps|], d, choices, w0.devices[d], now, end, later, p);
    SamePlanAt(ws[0].devices[d], ws[|steps|].devices[d], choices, p);
  }

  /** What holds when the cycle ends. */
  lemma AtTheEnd(w0: World, now: nat, ws: seq<World>, steps: seq<Step>, end: Step, d: DeviceId, choices: Choices)
    requires SoloRun(w0, now, ws, steps, end, d, choices)
    ensures SoloInv(ws[|steps|], d, choices, w0.devices[d].disk) && SameCycle(ws[0], ws[|steps|], d)
  {
    BeginStartsSolo(w0, d, now, choices);
    SoloStepsKeep(ws, steps, d, choices, w0.devices[d].disk, |steps|);
  }

  /** The device at the start of its next cycle, as far as `p` is concerned. */
  ghost predicate Continues(w: World, d: DeviceId, end: Step, later: nat, next: Device, p: Path)
    requires Ends(w, d, end)
  {
    var dev := w.devices[d];
    && next.cycle.Some? && next.disk == dev.disk && next.ignore == dev.ignore
    && next.cycle.value.remote == w.files
    && next.cycle.value.working == WorkingManifest(Scan(next.disk, next.ignore), next.base, later)
    && Get(next.base, p) == (if end.Checkpoint? && p !in dev.cycle.value.held then Get(w.files, p)
                             else Get(dev.base, p))
    && (end.Checkpoint? ==>
          !Open(dev, p) && (p in dev.cycle.value.copies ==> p in dev.cycle.value.settled + dev.cycle.value.held))
  }

  lemma NextContinues(w: World, d: DeviceId, end: Step, later: nat, p: Path)
    requires Ends(w, d, end)
    ensures Continues(w, d, end, later, NextCycle(w, d, end, later), p)
  {
    if end.Checkpoint? {
      NextBaseAt(w.devices[d].base, w.files, w.devices[d].cycle.value.held, p);
    }
  }

  lemma CopyResumes(w: World, d: DeviceId, choices: Choices, disk0: Disk, end: Step, later: nat, next: Device, p: Path)
    requires InCycle(w, d) && PathInv(w, w.devices[d], choices, disk0, p) && Ends(w, d, end) &&
             Continues(w, d, end, later, next, p)
    requires p in w.devices[d].cycle.value.copies
    ensures PlanAt(next, p) == if p in w.devices[d].cycle.value.landed || next.ignore(p) then Nothing else Up(Upload)
  {
    if !next.ignore(p) {
      WorkingShowsDisk(next.disk, next.base, next.ignore, later, p);
    }
  }

  lemma LandedIsDone(w: World, d: DeviceId, choices: Choices, disk0: Disk, end: Step, later: nat, next: Device, p: Path)
    requires InCycle(w, d) && PathInv(w, w.devices[d], choices, disk0, p) && Ends(w, d, end) &&
             Continues(w, d, end, later, next, p)
    requires p !in w.devices[d].cycle.value.copies && p in w.devices[d].cycle.value.landed
    ensures PlanAt(next, p) == Nothing
  {
    if !next.ignore(p) {
      WorkingShowsDisk(next.disk, next.base, next.ignore, later, p);
    }
  }

  lemma RestResumes(w: World, d: DeviceId, choices: Choices, dev0: Device, now: nat, end: Step, later: nat,
                    next: Device, p: Path)
    requires InCycle(w, d) && PathInv(w, w.devices[d], choices, dev0.disk, p) && Ends(w, d, end) &&
             Continues(w, d, end, later, next, p)
    requires w.devices[d].base == dev0.base && w.devices[d].ignore == dev0.ignore
    requires w.devices[d].cycle.value.working == WorkingManifest(Scan(dev0.disk, dev0.ignore), dev0.base, now)
    requires p !in w.devices[d].cycle.value.copies && p !in w.devices[d].cycle.value.landed
    ensures PlanAt(next, p) == PlanAt(w.devices[d], p)
    ensures PlanAt(next, p).Up? ==> UploadOp(next, p) == UploadOp(w.devices[d], p)
    ensures PlanAt(next, p) == Clash ==> KeptOp(next, p) == KeptOp(w.devices[d], p)
  {
    var dev := w.devices[d];
    if !dev.ignore(p) {
      if PlanAt(dev, p) != Nothing {
        assert Get(next.base, p) == Get(dev0.base, p);
        SameEntry(dev, next, dev0, now, later, p);
      } else {
        WorkingShowsDisk(next.disk, next.base, next.ignore, later, p);
      }
    }
  }

  lemma ResumesFrom(w: World, d: DeviceId, choices: Choices, dev0: Device, now: nat, end: Step, later: nat, p: Path)
    requires SoloInv(w, d, choices, dev0.disk) && Ends(w, d, end)
    requires w.devices[d].base == dev0.base && w.devices[d].ignore == dev0.ignore
    requires w.devices[d].cycle.value.working == WorkingManifest(Scan(dev0.disk, dev0.ignore), dev0.base, now)
    ensures var dev, next := w.devices[d], NextCycle(w, d, end, later);
            var c := dev.cycle.value;
            && (p !in c.copies ==>
                  && PlanAt(next, p) == (if p in c.landed then Nothing else PlanAt(dev, p))
                  && (PlanAt(next, p).Up? ==> UploadOp(next, p) == UploadOp(dev, p))
                  && (PlanAt(next, p) == Clash ==> KeptOp(next, p) == KeptOp(dev, p)))
            && (p in c.copies ==>
                  PlanAt(next, p) == if p in c.landed || dev.ignore(p) then Nothing else Up(Upload))
  {
    var c, next := w.devices[d].cycle.value, NextCycle(w, d, end, later);
    assert PathInv(w, w.devices[d], choices, dev0.disk, p);
    NextContinues(w, d, end, later, p);
    if p in c.copies {
      CopyResumes(w, d, choices, dev0.disk, end, later, next, p);
    } else if p in c.landed {
      LandedIsDone(w, d, choices, dev0.disk, end, later, next, p);
    } else {
      RestResumes(w, d, choices, dev0, now, end, later, next, p);
    }
  }

  /** Same file, same base entry, same server row: the next cycle's request is the same. */
  lemma SameEntry(dev: Device, next: Device, dev0: Device, now: nat, later: nat, p: Path)
    requires dev.cycle.Some? && next.cycle.Some? && !dev.ignore(p)
    requires dev.ignore == next.ignore == dev0.ignore && dev.base == dev0.base
    requires dev.cycle.value.working == WorkingManifest(Scan(dev0.disk, dev0.ignore), dev0.base, now)
    requires next.cycle.value.working == WorkingManifest(Scan(next.disk, next.ignore), next.base, later)
    requires Get(next.disk, p) == Get(dev0.disk, p) && Get(next.base, p) == Get(dev0.base, p)
    requires Get(next.cycle.value.remote, p) == Get(dev.cycle.value.remote, p)
    ensures PlanAt(next, p) == PlanAt(dev, p)
    ensures PlanAt(next, p).Up? ==> UploadOp(next, p) == UploadOp(dev, p)
    ensures PlanAt(next, p) == Clash ==> KeptOp(next, p) == KeptOp(dev, p)
  {
    var l, l' := Get(dev.cycle.value.working, p), Get(next.cycle.value.working, p);
    assert l.Some? <==> l'.Some?;
    assert l.Some? ==> l' == Some(l.value.(modified := l'.value.modified)) && VersionOf(l) == VersionOf(l');
  }
}
