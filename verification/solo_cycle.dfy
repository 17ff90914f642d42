/**
 * One device's cycle while no other device writes and no file is edited: any part of the plan, in any
 * order, with failures and lost replies. Everything said about resuming, converging and resolving
 * conflicts rests on the invariant proved here.
 */
module SoloCycle {
  import opened Types
  import opened Manifests
  import opened SyncRules
  import opened LocalState
  import opened ServerGate
  import opened Protocol

  type Choices = map<Path, Choice>

  /** The choice that is carried out for the conflict at `p`. */
  ghost function Chosen(dev: Device, choices: Choices, p: Path): Choice
    requires dev.cycle.Some? && PlanAt(dev, p) == Clash
  {
    ChoiceFor(choices, ConflictAt(dev, p))
  }

  /** Nothing is at `q`, on disk, on the server or in the base; there may be tombstones. */
  ghost predicate Unoccupied(w: World, dev: Device, q: Path)
    requires dev.cycle.Some?
  {
    && OnDisk(dev.disk, q).Gone? && At(w.files, q).Gone? && At(dev.cycle.value.remote, q).Gone?
    && At(dev.cycle.value.working, q).Gone? && At(dev.base, q).Gone?
  }

  /** A step of device `d`'s own cycle that carries out `choices`. */
  ghost predicate SoloStep(w: World, d: DeviceId, choices: Choices, s: Step) {
    && s.d == d && Enabled(w, s)
    && match s
       case Fetched(_, _, _) => true
       case RemovedLocal(_, _) => true
       case Send(_, _, _, _) => true
       case HoldBack(_, _, _) => true
       case SendCopy(_, _, _, _) => true
       case SendKept(_, p, _, _) =>
         var choice := Chosen(w.devices[d], choices, p);
         choice == KeepLocal || (choice == KeepBoth && ConflictCopyPath(p) in w.devices[d].cycle.value.copies)
       case TakeRemote(_, p, _) => Chosen(w.devices[d], choices, p) == KeepRemote
       case CopyRemote(_, p, _) =>
         Chosen(w.devices[d], choices, p) == KeepBoth && Unoccupied(w, w.devices[d], ConflictCopyPath(p))
       case _ => false
  }

  /** The version a planned path ends with on both sides once its action took effect. */
  ghost function Target(dev: Device, choices: Choices, p: Path): Version
    requires dev.cycle.Some?
  {
    var c := dev.cycle.value;
    match PlanAt(dev, p)
    case Down(_) => At(c.remote, p)
    case Clash => if Chosen(dev, choices, p) == KeepRemote then At(c.remote, p) else At(c.working, p)
    case _ => At(c.working, p)
  }

  /** `p` has not been acted on: both sides are what the cycle's snapshot says. */
  ghost predicate Untouched(w: World, dev: Device, disk0: Disk, p: Path)
    requires dev.cycle.Some?
  {
    && Get(w.files, p) == Get(dev.cycle.value.remote, p)
    && Get(dev.disk, p) == Get(disk0, p)
    && (!dev.ignore(p) ==> OnDisk(dev.disk, p) == At(dev.cycle.value.working, p))
  }

  ghost predicate Reached(w: World, dev: Device, p: Path, v: Version) {
    At(w.files, p) == v && OnDisk(dev.disk, p) == v
  }

  /** A row that a write without a parent does not get past, live or tombstone. */
  predicate RowRefuses(files: Manifest, q: Path) {
    q in files && files[q].hash != ""
  }

  /** A `KeepBoth` copy: on disk, and either not yet on the server or, if no row refused it, the same there. */
  ghost predicate CopyInPlace(w: World, dev: Device, q: Path)
    requires dev.cycle.Some? && q in dev.cycle.value.copies
  {
    var c := dev.cycle.value;
    && OnDisk(dev.disk, q) == Present(c.copies[q])
    && (if q in c.landed then At(w.files, q) == Present(c.copies[q]) else Get(w.files, q) == Get(c.remote, q))
    && (q in c.landed ==> !RowRefuses(c.remote, q))
    && At(c.remote, q).Gone? && At(c.working, q).Gone? && At(dev.base, q).Gone?
  }

  ghost predicate PathInv(w: World, dev: Device, choices: Choices, disk0: Disk, p: Path)
    requires dev.cycle.Some?
  {
    var c := dev.cycle.value;
    && (p in c.settled ==> p in c.landed)
    && (if p in c.copies then CopyInPlace(w, dev, p)
        else if p in c.landed then PlanAt(dev, p) != Nothing && Reached(w, dev, p, Target(dev, choices, p))
        else Untouched(w, dev, disk0, p))
  }

  /** A landed conflict was answered, and the copy of a `KeepBoth` holds the remote version. */
  ghost predicate SourceInv(dev: Device, choices: Choices, p: Path)
    requires dev.cycle.Some?
  {
    PlanAt(dev, p) == Clash ==>
      var c, choice, q := dev.cycle.value, Chosen(dev, choices, p), ConflictCopyPath(p);
      && (p in c.landed ==> choice != Defer && (choice == KeepBoth ==> q in c.copies))
      && (choice == KeepBoth && q in c.copies ==> Present(c.copies[q]) == At(c.remote, p))
  }

  /** `q` is the copy path of a conflict that both sides of are kept. */
  ghost predicate HasSource(dev: Device, choices: Choices, q: Path)
    requires dev.cycle.Some?
  {
    exists p :: PlanAt(dev, p) == Clash && Chosen(dev, choices, p) == KeepBoth && q == ConflictCopyPath(p)
  }

  ghost predicate CopiesInv(dev: Device, choices: Choices)
    requires dev.cycle.Some?
  {
    forall q :: q in dev.cycle.value.copies ==> HasSource(dev, choices, q)
  }

  /** A live entry of the walk names its content. */
  ghost predicate WorkingHashes(dev: Device) {
    dev.cycle.Some? ==> forall p :: At(dev.cycle.value.working, p) != Present("")
  }

  ghost predicate SoloCore(w: World, d: DeviceId, choices: Choices, disk0: Disk) {
    && InCycle(w, d)
    && WorkingHashes(w.devices[d])
    && forall p :: PathInv(w, w.devices[d], choices, disk0, p) && SourceInv(w.devices[d], choices, p)
  }

  ghost predicate SoloInv(w: World, d: DeviceId, choices: Choices, disk0: Disk) {
    SoloCore(w, d, choices, disk0) && CopiesInv(w.devices[d], choices)
  }

  ghost predicate SamePlan(dev: Device, dev': Device)
    requires dev.cycle.Some? && dev'.cycle.Some?
  {
    && dev'.base == dev.base && dev'.ignore == dev.ignore
    && dev'.cycle.value.working == dev.cycle.value.working
    && dev'.cycle.value.remote == dev.cycle.value.remote
  }

  /** What stays put through a solo cycle: the plan's inputs and every idle device. */
  ghost predicate SameCycle(w: World, w': World, d: DeviceId)
    requires InCycle(w, d)
  {
    && InCycle(w', d) && w'.devices.Keys == w.devices.Keys
    && SamePlan(w.devices[d], w'.devices[d])
    && forall e :: e in w.devices && e != d && w.devices[e].cycle.None? ==> w'.devices[e] == w.devices[e]
  }

  lemma BeginStartsSolo(w: World, d: DeviceId, now: nat, choices: Choices)
    requires Enabled(w, Begin(d, now))
    ensures SoloInv(Do(w, Begin(d, now)), d, choices, w.devices[d].disk)
  {
    var dev := w.devices[d];
    var dev' := Do(w, Begin(d, now)).devices[d];
    forall p ensures PathInv(Do(w, Begin(d, now)), dev', choices, dev.disk, p) && SourceInv(dev', choices, p) {
      if !dev.ignore(p) {
        WorkingShowsDisk(dev.disk, dev.base, dev.ignore, now, p);
      }
    }
  }

  /** Nobody else writes, so the server accepts every first send and knows every repeated one. */
  lemma SoloServe(w: World, d: DeviceId, choices: Choices, disk0: Disk, p: Path, now: nat)
    requires SoloCore(w, d, choices, disk0)
    requires PlanAt(w.devices[d], p).Up? ||
             (PlanAt(w.devices[d], p) == Clash && Chosen(w.devices[d], choices, p) in {KeepLocal, KeepBoth})
    ensures var dev := w.devices[d];
            var op := if PlanAt(dev, p).Up? then UploadOp(dev, p) else KeptOp(dev, p);
            && op.path == p
            && At(Serve(w.files, op, now), p) == At(dev.cycle.value.working, p)
            && (p !in dev.cycle.value.landed ==> ReplyTo(w.files, op) == Ok)
            && OnDisk(dev.disk, p) == At(dev.cycle.value.working, p)
  {
    assert PathInv(w, w.devices[d], choices, disk0, p);
  }

  lemma SamePlanAt(dev: Device, dev': Device, choices: Choices, p: Path)
    requires dev.cycle.Some? && dev'.cycle.Some? && SamePlan(dev, dev')
    ensures PlanAt(dev', p) == PlanAt(dev, p) && Target(dev', choices, p) == Target(dev, choices, p)
    ensures PlanAt(dev, p) == Clash ==> Chosen(dev', choices, p) == Chosen(dev, choices, p)
  {
  }

  /** A step that acts on `at` alone leaves the invariant of every other path. */
  lemma OtherPathsKeep(w: World, w': World, d: DeviceId, choices: Choices, disk0: Disk, p: Path)
    requires InCycle(w, d) && PathInv(w, w.devices[d], choices, disk0, p) && SameCycle(w, w', d)
    requires Get(w'.files, p) == Get(w.files, p)
    requires var dev, dev' := w.devices[d], w'.devices[d];
             var c, c' := dev.cycle.value, dev'.cycle.value;
             && Get(dev'.disk, p) == Get(dev.disk, p)
             && (p in c'.settled <==> p in c.settled) && (p in c'.landed <==> p in c.landed)
             && Get(c'.copies, p) == Get(c.copies, p)
    ensures PathInv(w', w'.devices[d], choices, disk0, p)
  {
    SamePlanAt(w.devices[d], w'.devices[d], choices, p);
    assert p in w.devices[d].cycle.value.copies <==> p in w'.devices[d].cycle.value.copies;
  }

  lemma StepKeepsCopies(w: World, d: DeviceId, choices: Choices, s: Step)
    requires InCycle(w, d) && CopiesInv(w.devices[d], choices) && SoloStep(w, d, choices, s)
    requires SameCycle(w, Do(w, s), d)
    ensures CopiesInv(Do(w, s).devices[d], choices)
  {
    var dev, dev' := w.devices[d], Do(w, s).devices[d];
    forall q | q in dev'.cycle.value.copies ensures HasSource(dev', choices, q) {
      if q in dev.cycle.value.copies {
        var p :| PlanAt(dev, p) == Clash && Chosen(dev, choices, p) == KeepBoth && q == ConflictCopyPath(p);
        SamePlanAt(dev, dev', choices, p);
      } else {
        SamePlanAt(dev, dev', choices, s.p);
      }
    }
  }

  /** What a step about one path leaves alone. */
  ghost predicate ActsOnly(w: World, w': World, d: DeviceId, at: Path)
    requires InCycle(w, d)
  {
    && SameCycle(w, w', d)
    && var dev, dev' := w.devices[d], w'.devices[d];
       var c, c' := dev.cycle.value, dev'.cycle.value;
       && c'.copies == c.copies
       && forall p :: p != at ==>
            && Get(w'.files, p) == Get(w.files, p) && Get(dev'.disk, p) == Get(dev.disk, p)
            && (p in c'.settled <==> p in c.settled) && (p in c'.landed <==> p in c.landed)
  }

  /** A step about one path keeps the invariant if it keeps that path's. */
  lemma ActKeepsSolo(w: World, w': World, d: DeviceId, choices: Choices, disk0: Disk, at: Path)
    requires SoloCore(w, d, choices, disk0) && ActsOnly(w, w', d, at)
    requires PathInv(w', w'.devices[d], choices, disk0, at) && SourceInv(w'.devices[d], choices, at)
    ensures SoloCore(w', d, choices, disk0)
  {
    var dev, dev' := w.devices[d], w'.devices[d];
    forall p ensures PathInv(w', dev', choices, disk0, p) && SourceInv(dev', choices, p) {
      assert PathInv(w, dev, choices, disk0, p) && SourceInv(dev, choices, p);
      SamePlanAt(dev, dev', choices, p);
      if p != at {
        OtherPathsKeep(w, w', d, choices, disk0, p);
      }
    }
  }

  lemma LocalStepActs(w: World, d: DeviceId, choices: Choices, disk0: Disk, s: Step)
    requires InCycle(w, d) && SoloStep(w, d, choices, s) && PathInv(w, w.devices[d], choices, disk0, s.p)
    requires SourceInv(w.devices[d], choices, s.p) && (s.Fetched? || s.RemovedLocal? || s.TakeRemote? || s.HoldBack?)
    ensures PathInv(Do(w, s), Do(w, s).devices[d], choices, disk0, s.p) && SourceInv(Do(w, s).devices[d], choices, s.p)
    ensures ActsOnly(w, Do(w, s), d, s.p)
  {
    SamePlanAt(w.devices[d], Do(w, s).devices[d], choices, s.p);
  }

  lemma LocalStepKeepsSolo(w: World, d: DeviceId, choices: Choices, disk0: Disk, s: Step)
    requires SoloCore(w, d, choices, disk0) && SoloStep(w, d, choices, s)
    requires s.Fetched? || s.RemovedLocal? || s.TakeRemote? || s.HoldBack?
    ensures SoloCore(Do(w, s), d, choices, disk0) && SameCycle(w, Do(w, s), d)
  {
    assert PathInv(w, w.devices[d], choices, disk0, s.p) && SourceInv(w.devices[d], choices, s.p);
    LocalStepActs(w, d, choices, disk0, s);
    ActKeepsSolo(w, Do(w, s), d, choices, disk0, s.p);
  }

  lemma SendActs(w: World, d: DeviceId, choices: Choices, disk0: Disk, s: Step)
    requires SoloCore(w, d, choices, disk0) && SoloStep(w, d, choices, s) && (s.Send? || s.SendKept?)
    ensures PathInv(Do(w, s), Do(w, s).devices[d], choices, disk0, s.p) && SourceInv(Do(w, s).devices[d], choices, s.p)
  {
    SoloServe(w, d, choices, disk0, s.p, s.now);
    assert PathInv(w, w.devices[d], choices, disk0, s.p) && SourceInv(w.devices[d], choices, s.p);
    SamePlanAt(w.devices[d], Do(w, s).devices[d], choices, s.p);
  }

  lemma SendActsOnly(w: World, d: DeviceId, choices: Choices, s: Step)
    requires InCycle(w, d) && SoloStep(w, d, choices, s) && (s.Send? || s.SendKept?)
    ensures ActsOnly(w, Do(w, s), d, s.p)
  {
    var dev := w.devices[d];
    ExecuteActsOnly(w, d, if s.Send? then UploadOp(dev, s.p) else KeptOp(dev, s.p), s.now, s.answered);
  }

  lemma ExecuteActsOnly(w: World, d: DeviceId, op: Op, now: nat, answered: bool)
    requires InCycle(w, d)
    ensures ActsOnly(w, Execute(w, d, op, now, answered), d, op.path)
  {
    forall p | p != op.path ensures Get(Serve(w.files, op, now), p) == Get(w.files, p) {
      ServesOnePath(w.files, op, now, p);
    }
  }

  lemma SendKeepsSolo(w: World, d: DeviceId, choices: Choices, disk0: Disk, s: Step)
    requires SoloCore(w, d, choices, disk0) && SoloStep(w, d, choices, s) && (s.Send? || s.SendKept?)
    ensures SoloCore(Do(w, s), d, choices, disk0) && SameCycle(w, Do(w, s), d)
  {
    SendActs(w, d, choices, disk0, s);
    SendActsOnly(w, d, choices, s);
    ActKeepsSolo(w, Do(w, s), d, choices, disk0, s.p);
  }

  lemma CopyKeepsSolo(w: World, d: DeviceId, choices: Choices, disk0: Disk, s: Step)
    requires SoloCore(w, d, choices, disk0) && SoloStep(w, d, choices, s) && s.CopyRemote?
    ensures SoloCore(Do(w, s), d, choices, disk0) && SameCycle(w, Do(w, s), d)
  {
    var w', q := Do(w, s), ConflictCopyPath(s.p);
    var dev, dev' := w.devices[d], w'.devices[d];
    assert PathInv(w, dev, choices, disk0, s.p) && PathInv(w, dev, choices, disk0, q) && SourceInv(dev, choices, s.p);
    assert q !in dev.cycle.value.landed && q !in dev.cycle.value.copies;
    forall p ensures PathInv(w', dev', choices, disk0, p) {
      assert PathInv(w, dev, choices, disk0, p);
      if p != q {
        OtherPathsKeep(w, w', d, choices, disk0, p);
      }
    }
    forall p ensures SourceInv(dev', choices, p) {
      assert SourceInv(dev, choices, p);
      SamePlanAt(dev, dev', choices, p);
      CopyPathInjective(p, s.p);
    }
  }

  /**
   * The upload of a copy carries no parent: it is accepted exactly without a hashed row, or when the copy is
   * there already.
   */
  lemma CopyIsAcceptedIff(w: World, d: DeviceId, q: Path)
    requires InCycle(w, d) && q in w.devices[d].cycle.value.copies
    ensures var dev := w.devices[d];
            ReplyTo(w.files, CopyOp(dev, q)) == Ok <==>
              !RowRefuses(w.files, q) || At(w.files, q) == Present(dev.cycle.value.copies[q])
  {
  }

  lemma SendCopyActs(w: World, d: DeviceId, choices: Choices, disk0: Disk, s: Step)
    requires SoloCore(w, d, choices, disk0) && SoloStep(w, d, choices, s) && s.SendCopy?
    ensures PathInv(Do(w, s), Do(w, s).devices[d], choices, disk0, s.p) && SourceInv(Do(w, s).devices[d], choices, s.p)
    ensures ActsOnly(w, Do(w, s), d, s.p)
  {
    var dev := w.devices[d];
    assert PathInv(w, dev, choices, disk0, s.p) && SourceInv(dev, choices, s.p);
    assert PlanAt(dev, s.p) == Nothing;
    SamePlanAt(dev, Do(w, s).devices[d], choices, s.p);
  }

  lemma SendCopyKeepsSolo(w: World, d: DeviceId, choices: Choices, disk0: Disk, s: Step)
    requires SoloCore(w, d, choices, disk0) && SoloStep(w, d, choices, s) && s.SendCopy?
    ensures SoloCore(Do(w, s), d, choices, disk0) && SameCycle(w, Do(w, s), d)
  {
    SendCopyActs(w, d, choices, disk0, s);
    ActKeepsSolo(w, Do(w, s), d, choices, disk0, s.p);
  }

  lemma StepKeepsSolo(w: World, d: DeviceId, choices: Choices, disk0: Disk, s: Step)
    requires SoloInv(w, d, choices, disk0) && SoloStep(w, d, choices, s)
    ensures SoloInv(Do(w, s), d, choices, disk0) && SameCycle(w, Do(w, s), d)
  {
    if s.Send? || s.SendKept? {
      SendKeepsSolo(w, d, choices, disk0, s);
    } else if s.CopyRemote? {
      CopyKeepsSolo(w, d, choices, disk0, s);
    } else if s.SendCopy? {
      SendCopyKeepsSolo(w, d, choices, disk0, s);
    } else {
      LocalStepKeepsSolo(w, d, choices, disk0, s);
    }
    StepKeepsCopies(w, d, choices, s);
  }

  /** A cycle's steps between its snapshot and its end. */
  ghost predicate SoloSteps(ws: seq<World>, steps: seq<Step>, d: DeviceId, choices: Choices) {
    && |ws| == |steps| + 1
    && forall k {:trigger steps[k]} :: 0 <= k < |steps| ==>
         SoloStep(ws[k], d, choices, steps[k]) && ws[k + 1] == Do(ws[k], steps[k])
  }

  lemma {:induction false} SoloStepsKeep(ws: seq<World>, steps: seq<Step>, d: DeviceId, choices: Choices, disk0: Disk,
                                         k: nat)
    requires SoloSteps(ws, steps, d, choices) && k <= |steps|
    requires SoloInv(ws[0], d, choices, disk0)
    ensures SoloInv(ws[k], d, choices, disk0) && SameCycle(ws[0], ws[k], d)
  {
    if k > 0 {
      SoloStepsKeep(ws, steps, d, choices, disk0, k - 1);
      StepKeepsSolo(ws[k - 1], d, choices, disk0, steps[k - 1]);
    }
  }

  lemma OneStepSooner(w: World, s: Step, vs: seq<World>, rest: seq<Step>, d: DeviceId, choices: Choices)
    requires SoloStep(w, d, choices, s) && SoloSteps(vs, rest, d, choices) && vs[0] == Do(w, s)
    ensures SoloSteps([w] + vs, [s] + rest, d, choices) && ([w] + vs)[|rest| + 1] == vs[|rest|]
  {
    var ws, steps := [w] + vs, [s] + rest;
    forall k | 0 <= k < |steps| ensures SoloStep(ws[k], d, choices, steps[k]) && ws[k + 1] == Do(ws[k], steps[k]) {
      if k > 0 {
        assert steps[k] == rest[k - 1];
      }
    }
  }
}
