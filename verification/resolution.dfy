/** What the user chose for a conflict is what both sides end up with. */
module Resolution {
  import opened Types
  import opened Manifests
  import opened SyncRules
  import opened LocalState
  import opened ServerGate
  import opened Protocol
  import opened SoloCycle
  import opened Resume

  /** Nothing failed: only deferred conflicts were held back, and copies whose path has a row that refuses them. */
  ghost predicate HeldAsAnswered(dev: Device, choices: Choices)
    requires dev.cycle.Some?
  {
    var c := dev.cycle.value;
    forall p :: p in c.held ==>
      (PlanAt(dev, p) == Clash && Chosen(dev, choices, p) == Defer) || (p in c.copies && RowRefuses(c.remote, p))
  }

  ghost predicate Faithful(first: World, last: World, d: DeviceId, choices: Choices, p: Path)
    requires InCycle(first, d) && PlanAt(first.devices[d], p) == Clash && d in last.devices
  {
    var dev, dev' := first.devices[d], last.devices[d];
    var l, r, q := At(dev.cycle.value.working, p), At(dev.cycle.value.remote, p), ConflictCopyPath(p);
    match Chosen(dev, choices, p)
    case KeepLocal => Reached(last, dev', p, l)
    case KeepRemote => Reached(last, dev', p, r)
    case KeepBoth => l.Present? && r.Present? && Reached(last, dev', p, l) && Reached(last, dev', q, r)
    case Defer => At(last.files, p) == r && OnDisk(dev'.disk, p) == l
  }

  /** The one failing family: `KeepBoth` where the copy path has a row with a hash, which can only be a tombstone. */
  ghost predicate CopyBlocked(dev: Device, choices: Choices, p: Path)
    requires dev.cycle.Some? && PlanAt(dev, p) == Clash
  {
    Chosen(dev, choices, p) == KeepBoth && RowRefuses(dev.cycle.value.remote, ConflictCopyPath(p))
  }

  /** Then the kept version is on both sides, but the other one only in the copy on this disk. */
  ghost predicate HalfKept(first: World, last: World, d: DeviceId, p: Path)
    requires InCycle(first, d) && d in last.devices
  {
    var dev, dev', q := first.devices[d], last.devices[d], ConflictCopyPath(p);
    && Reached(last, dev', p, At(dev.cycle.value.working, p))
    && OnDisk(dev'.disk, q) == At(dev.cycle.value.remote, p) && At(last.files, q).Gone?
  }

  /**
   * Faithful resolution, exactly. After a cycle in which the transfers succeed, every conflict shows
   * the version chosen on both sides, a `KeepBoth` copy holds the other version on both sides and a
   * deferred conflict is as it was, except where a tombstone stands at the copy path: there the
   * server refuses the copy. The next cycle plans the deferred conflicts and the refused copies,
   * and nothing else.
   */
  lemma ChoicesAreCarriedOut(w0: World, now: nat, ws: seq<World>, steps: seq<Step>, d: DeviceId, choices: Choices,
                             later: nat, p: Path)
    requires SoloRun(w0, now, ws, steps, Checkpoint(d), d, choices)
    requires InCycle(ws[|steps|], d) && HeldAsAnswered(ws[|steps|].devices[d], choices)
    ensures InCycle(ws[0], d)
    ensures var first, last := ws[0], Do(ws[|steps|], Checkpoint(d));
            var dev := first.devices[d];
            && (PlanAt(dev, p) == Clash ==> (Faithful(first, last, d, choices, p) <==> !CopyBlocked(dev, choices, p)))
            && (PlanAt(dev, p) == Clash && CopyBlocked(dev, choices, p) ==> HalfKept(first, last, d, p))
            && PlanAt(NextCycle(ws[|steps|], d, Checkpoint(d), later), p) == PlannedAgain(dev, choices, p)
  {
    AtTheEnd(w0, now, ws, steps, Checkpoint(d), d, choices);
    ComesBack(w0, now, ws, steps, d, choices, later, p);
    if PlanAt(ws[0].devices[d], p) == Clash {
      FaithfulAt(ws[0], ws[|steps|], d, choices, w0.devices[d].disk, p);
    }
  }

  /** What the next cycle has to do with `p`. */
  ghost function PlannedAgain(dev: Device, choices: Choices, p: Path): Decision
    requires dev.cycle.Some?
  {
    if PlanAt(dev, p) == Clash && Chosen(dev, choices, p) == Defer then Clash
    else if HasSource(dev, choices, p) && RowRefuses(dev.cycle.value.remote, p) && !dev.ignore(p) then Up(Upload)
    else Nothing
  }

  lemma ComesBack(w0: World, now: nat, ws: seq<World>, steps: seq<Step>, d: DeviceId, choices: Choices, later: nat,
                  p: Path)
    requires SoloRun(w0, now, ws, steps, Checkpoint(d), d, choices)
    requires SoloInv(ws[|steps|], d, choices, w0.devices[d].disk) && SameCycle(ws[0], ws[|steps|], d)
    requires HeldAsAnswered(ws[|steps|].devices[d], choices)
    ensures PlanAt(NextCycle(ws[|steps|], d, Checkpoint(d), later), p) == PlannedAgain(ws[0].devices[d], choices, p)
  {
    var first, last := ws[0].devices[d], ws[|steps|].devices[d];
    SamePlanAt(first, last, choices, p);
    SameSource(first, last, choices, p);
    ResumesExactly(w0, now, ws, steps, Checkpoint(d), d, choices, later, p);
    Settled(ws[|steps|], d, choices, w0.devices[d].disk, p);
    CopiesAreSources(ws[|steps|], d, choices, w0.devices[d].disk, p);
  }

  lemma SameSource(dev: Device, dev': Device, choices: Choices, q: Path)
    requires dev.cycle.Some? && dev'.cycle.Some? && SamePlan(dev, dev')
    ensures HasSource(dev, choices, q) <==> HasSource(dev', choices, q)
  {
    if p :| PlanAt(dev, p) == Clash && Chosen(dev, choices, p) == KeepBoth && q == ConflictCopyPath(p) {
      SamePlanAt(dev, dev', choices, p);
    } else if p :| PlanAt(dev', p) == Clash && Chosen(dev', choices, p) == KeepBoth && q == ConflictCopyPath(p) {
      SamePlanAt(dev, dev', choices, p);
    }
  }

  /** At the checkpoint every `KeepBoth` has had its copy written. */
  lemma CopiesAreSources(w: World, d: DeviceId, choices: Choices, disk0: Disk, q: Path)
    requires SoloInv(w, d, choices, disk0) && Enabled(w, Checkpoint(d)) && HeldAsAnswered(w.devices[d], choices)
    ensures q in w.devices[d].cycle.value.copies <==> HasSource(w.devices[d], choices, q)
  {
    var dev := w.devices[d];
    if p :| PlanAt(dev, p) == Clash && Chosen(dev, choices, p) == KeepBoth && q == ConflictCopyPath(p) {
      Settled(w, d, choices, disk0, p);
      assert SourceInv(dev, choices, p);
    }
  }

  lemma FaithfulAt(first: World, w: World, d: DeviceId, choices: Choices, disk0: Disk, p: Path)
    requires InCycle(first, d) && SoloInv(w, d, choices, disk0) && SamePlan(first.devices[d], w.devices[d])
    requires Enabled(w, Checkpoint(d)) && HeldAsAnswered(w.devices[d], choices)
    requires PlanAt(first.devices[d], p) == Clash
    ensures Faithful(first, Do(w, Checkpoint(d)), d, choices, p) <==> !CopyBlocked(first.devices[d], choices, p)
    ensures CopyBlocked(first.devices[d], choices, p) ==> HalfKept(first, Do(w, Checkpoint(d)), d, p)
  {
    var dev, last := w.devices[d], Do(w, Checkpoint(d));
    SamePlanAt(first.devices[d], dev, choices, p);
    Settled(w, d, choices, disk0, p);
    assert PathInv(w, dev, choices, disk0, p) && SourceInv(dev, choices, p);
    assert last.files == w.files && last.devices[d].disk == dev.disk;
    if Chosen(dev, choices, p) == KeepBoth {
      CopyFaithfulAt(first, w, last, d, choices, disk0, p);
    }
  }

  lemma CopyFaithfulAt(first: World, w: World, last: World, d: DeviceId, choices: Choices, disk0: Disk, p: Path)
    requires InCycle(first, d) && SoloInv(w, d, choices, disk0) && SamePlan(first.devices[d], w.devices[d])
    requires Enabled(w, Checkpoint(d)) && HeldAsAnswered(w.devices[d], choices)
    requires PlanAt(w.devices[d], p) == Clash && Chosen(w.devices[d], choices, p) == KeepBoth &&
             p in w.devices[d].cycle.value.landed
    requires d in last.devices && last.files == w.files && last.devices[d].disk == w.devices[d].disk
    ensures var c, q := w.devices[d].cycle.value, ConflictCopyPath(p);
            && Reached(last, last.devices[d], p, At(c.working, p))
            && At(c.working, p).Present? && At(c.remote, p).Present?
            && OnDisk(last.devices[d].disk, q) == At(c.remote, p)
            && (if RowRefuses(c.remote, q) then At(last.files, q).Gone? else At(last.files, q) == At(c.remote, p))
  {
    var dev, q := w.devices[d], ConflictCopyPath(p);
    Settled(w, d, choices, disk0, q);
    assert PathInv(w, dev, choices, disk0, p) && SourceInv(dev, choices, p);
    assert PathInv(w, dev, choices, disk0, q);
  }

  /** At the checkpoint a planned path has landed unless it was deferred, and a copy unless a row refused it. */
  lemma Settled(w: World, d: DeviceId, choices: Choices, disk0: Disk, p: Path)
    requires SoloInv(w, d, choices, disk0) && Enabled(w, Checkpoint(d)) && HeldAsAnswered(w.devices[d], choices)
    ensures var dev := w.devices[d];
            var c := dev.cycle.value;
            && (p in c.copies ==> (p in c.landed <==> !RowRefuses(c.remote, p)) && PlanAt(dev, p) == Nothing)
            && (p !in c.copies && PlanAt(dev, p) != Nothing ==>
                  (p in c.landed <==> !(PlanAt(dev, p) == Clash && Chosen(dev, choices, p) == Defer)))
  {
    var dev := w.devices[d];
    assert PathInv(w, dev, choices, disk0, p) && SourceInv(dev, choices, p);
    assert !Open(dev, p);
  }

  /** A refused copy is not lost: the next cycle sends it over the tombstone, and is accepted. */
  lemma RefusedCopyIsSentAgain(w0: World, now: nat, ws: seq<World>, steps: seq<Step>, end: Step, d: DeviceId,
                               choices: Choices, later: nat, q: Path)
    requires SoloRun(w0, now, ws, steps, end, d, choices)
    requires InCycle(ws[|steps|], d) && !ws[|steps|].devices[d].ignore(q)
    requires var c := ws[|steps|].devices[d].cycle.value; q in c.copies && q !in c.landed
    ensures var w, next := ws[|steps|], NextCycle(ws[|steps|], d, end, later);
            && PlanAt(next, q) == Up(Upload)
            && ReplyTo(w.files, UploadOp(next, q)) == Ok
            && At(Serve(w.files, UploadOp(next, q), later), q) == Present(w.devices[d].cycle.value.copies[q])
  {
    AtTheEnd(w0, now, ws, steps, end, d, choices);
    ResumesExactly(w0, now, ws, steps, end, d, choices, later, q);
    SentAgain(ws[|steps|], d, choices, w0.devices[d].disk, end, later, q);
  }

  lemma SentAgain(w: World, d: DeviceId, choices: Choices, disk0: Disk, end: Step, later: nat, q: Path)
    requires SoloInv(w, d, choices, disk0) && Ends(w, d, end) && !w.devices[d].ignore(q)
    requires q in w.devices[d].cycle.value.copies && PlanAt(NextCycle(w, d, end, later), q) == Up(Upload)
    ensures var next := NextCycle(w, d, end, later);
            && ReplyTo(w.files, UploadOp(next, q)) == Ok
            && At(Serve(w.files, UploadOp(next, q), later), q) == Present(w.devices[d].cycle.value.copies[q])
  {
    assert PathInv(w, w.devices[d], choices, disk0, q);
    NextContinues(w, d, end, later, q);
    AcceptedOverRow(w, d, choices, disk0, end, later, NextCycle(w, d, end, later), q);
  }

  lemma AcceptedOverRow(w: World, d: DeviceId, choices: Choices, disk0: Disk, end: Step, later: nat, next: Device,
                        q: Path)
    requires InCycle(w, d) && PathInv(w, w.devices[d], choices, disk0, q) && Ends(w, d, end) &&
             Continues(w, d, end, later, next, q)
    requires q in w.devices[d].cycle.value.copies && !next.ignore(q) && PlanAt(next, q) == Up(Upload)
    ensures ReplyTo(w.files, UploadOp(next, q)) == Ok
    ensures At(Serve(w.files, UploadOp(next, q), later), q) == Present(w.devices[d].cycle.value.copies[q])
  {
    WorkingShowsDisk(next.disk, next.base, next.ignore, later, q);
    var op := UploadOp(next, q);
    assert op.path == q && op.parent == (if q in w.files then w.files[q].hash else "");
    assert op.Put? && op.content == w.devices[d].cycle.value.copies[q];
  }
}
