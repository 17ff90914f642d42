/**
 * The sync cycle of `core/src/sync_engine.rs` as a protocol between any number of devices and one
 * server. A cycle is not atomic: its snapshot, every download, every upload, every conflict
 * resolution and its checkpoint are separate steps, and the steps of different devices, user edits
 * and failures interleave freely.
 */
module Protocol {
  import opened Types
  import opened Manifests
  import opened SyncRules
  import opened LocalState
  import opened ServerGate

  type DeviceId = nat

  /**
   * A cycle in flight. `working` and `remote` are the manifests its diff was made from; `settled`
   * are the paths reported done, `held` the hold-back set, `copies` the `KeepBoth` copies written
   * and to be uploaded. `landed` and `touched` are history: the paths whose action took effect,
   * reported or not, and the paths another device has written since the snapshot.
   */
  datatype Cycle = Cycle(working: Manifest, remote: Manifest, settled: set<Path>, held: set<Path>,
                         copies: map<Path, ContentHash>, fatal: bool, landed: set<Path>, touched: set<Path>)

  /** `had` is history: the versions a cycle saw on, or wrote to, this device's own disk. */
  datatype Device =
    Device(disk: Disk, base: Manifest, ignore: IgnoreRules, cycle: Option<Cycle>, had: set<(Path, Hash)>)

  datatype World = World(files: Manifest, devices: map<DeviceId, Device>)

  datatype Step =
    | Join(d: DeviceId, disk: Disk, ignore: IgnoreRules)
    | Edit(d: DeviceId, p: Path, file: Option<DiskFile>)
    | Begin(d: DeviceId, now: nat)
    | Fetched(d: DeviceId, p: Path, copy: DiskFile)
    | RemovedLocal(d: DeviceId, p: Path)
    | Send(d: DeviceId, p: Path, now: nat, answered: bool)
    | SendKept(d: DeviceId, p: Path, now: nat, answered: bool)
    | TakeRemote(d: DeviceId, p: Path, file: Option<DiskFile>)
    | CopyRemote(d: DeviceId, p: Path, copy: DiskFile)
    | SendCopy(d: DeviceId, p: Path, now: nat, answered: bool)
    | HoldBack(d: DeviceId, p: Path, fatal: bool)
    | Checkpoint(d: DeviceId)
    | Quit(d: DeviceId)

  // ---- What a cycle plans and sends -------------------------------------------------------

  ghost function PlanAt(dev: Device, p: Path): Decision
    requires dev.cycle.Some?
  {
    Plan(dev.base, dev.cycle.value.working, dev.cycle.value.remote, dev.ignore, p)
  }

  function OpOf(action: SyncAction): Op
    requires action.local.Some?
  {
    var parent := if ParentHash(action).Some? then ParentHash(action).value else "";
    if action.kind == Upload
    then Put(action.path, parent, action.local.value.hash, action.local.value.size, action.path)
    else Delete(action.path, parent)
  }

  ghost function UploadOp(dev: Device, p: Path): Op
    requires dev.cycle.Some? && PlanAt(dev, p).Up?
  {
    OpOf(PlannedUpload(dev.base, dev.cycle.value.working, dev.cycle.value.remote, p).value)
  }

  ghost function ConflictAt(dev: Device, p: Path): Conflict
    requires dev.cycle.Some? && PlanAt(dev, p) == Clash
  {
    PlannedConflict(dev.base, dev.cycle.value.working, dev.cycle.value.remote, p).value
  }

  ghost function KeptOp(dev: Device, p: Path): Op
    requires dev.cycle.Some? && PlanAt(dev, p) == Clash
  {
    OpOf(ConflictToUpload(ConflictAt(dev, p)))
  }

  ghost function CopyOp(dev: Device, q: Path): Op
    requires dev.cycle.Some? && q in dev.cycle.value.copies
  {
    Put(q, "", dev.cycle.value.copies[q], if q in dev.disk then dev.disk[q].size else 0, q)
  }

  // ---- Steps ------------------------------------------------------------------------------

  ghost predicate InCycle(w: World, d: DeviceId) {
    d in w.devices && w.devices[d].cycle.Some?
  }

  /** Planned, and neither reported done nor held back yet. */
  ghost predicate Open(dev: Device, p: Path)
    requires dev.cycle.Some?
  {
    PlanAt(dev, p) != Nothing && p !in dev.cycle.value.settled && p !in dev.cycle.value.held
  }

  /** A fetch reads whatever the server holds at that moment. */
  ghost predicate Serves(files: Manifest, p: Path, copy: DiskFile) {
    At(files, p) == Present(copy.hash)
  }

  ghost predicate Enabled(w: World, s: Step) {
    if s.Join? then s.d !in w.devices
    else if s.Edit? then s.d in w.devices
    else if s.Begin? then s.d in w.devices && w.devices[s.d].cycle.None?
    else
      && InCycle(w, s.d)
      && var dev := w.devices[s.d];
         var c := dev.cycle.value;
         match s
         case Fetched(_, p, copy) => Open(dev, p) && PlanAt(dev, p) == Down(Download) && Serves(w.files, p, copy)
         case RemovedLocal(_, p) => Open(dev, p) && PlanAt(dev, p) == Down(DeleteLocal)
         case Send(_, p, _, _) => Open(dev, p) && PlanAt(dev, p).Up?
         case SendKept(_, p, _, _) => Open(dev, p) && PlanAt(dev, p) == Clash
         case TakeRemote(_, p, file) =>
           Open(dev, p) && PlanAt(dev, p) == Clash &&
           if At(c.remote, p).Gone? then file.None? else file.Some? && Serves(w.files, p, file.value)
         case CopyRemote(_, p, copy) =>
           Open(dev, p) && PlanAt(dev, p) == Clash && At(c.working, p).Present? && At(c.remote, p).Present? &&
           Serves(w.files, p, copy)
         case SendCopy(_, q, _, _) => q in c.copies && q !in c.settled
         case HoldBack(_, p, _) => true
         case Checkpoint(_) =>
           !c.fatal && c.copies.Keys <= c.settled + c.held && forall p :: !Open(dev, p)
         case _ => true
  }

  ghost function PutDevice(w: World, d: DeviceId, dev: Device): World {
    w.(devices := w.devices[d := dev])
  }

  ghost function WriteDisk(dev: Device, p: Path, file: Option<DiskFile>): Device {
    match file
    case Some(f) => dev.(disk := dev.disk[p := f], had := dev.had + {(p, f.hash)})
    case None => dev.(disk := dev.disk - {p})
  }

  ghost function Settle(dev: Device, p: Path): Device
    requires dev.cycle.Some?
  {
    var c := dev.cycle.value;
    dev.(cycle := Some(c.(settled := c.settled + {p}, landed := c.landed + {p})))
  }

  ghost function Touch(dev: Device, p: Path): Device {
    if dev.cycle.None? then dev
    else dev.(cycle := Some(dev.cycle.value.(touched := dev.cycle.value.touched + {p})))
  }

  /** The sender's bookkeeping; an unanswered request leaves none, so it may be sent again. */
  ghost function Book(dev: Device, reply: Reply, p: Path, answered: bool): Device
    requires dev.cycle.Some?
  {
    var c := dev.cycle.value;
    dev.(cycle := Some(c.(landed := if reply == Ok then c.landed + {p} else c.landed,
                          settled := if answered && reply == Ok then c.settled + {p} else c.settled,
                          held := if answered && reply != Ok then c.held + {p} else c.held)))
  }

  /** Device `d` has `op` executed by the server. */
  ghost function Execute(w: World, d: DeviceId, op: Op, now: nat, answered: bool): World
    requires InCycle(w, d)
  {
    var wrote := Writes(w.files, op);
    World(Serve(w.files, op, now),
          map e | e in w.devices ::
            if e == d then Book(w.devices[e], ReplyTo(w.files, op), op.path, answered)
            else if wrote then Touch(w.devices[e], op.path) else w.devices[e])
  }

  ghost function Do(w: World, s: Step): World
    requires Enabled(w, s)
  {
    if s.Join? then PutDevice(w, s.d, Device(s.disk, map[], s.ignore, None, {}))
    else
      var dev := w.devices[s.d];
      match s
      case Edit(d, p, file) =>
        PutDevice(w, d, dev.(disk := if file.Some? then dev.disk[p := file.value] else dev.disk - {p}))
      case Begin(d, now) =>
        var scanned := Scan(dev.disk, dev.ignore);
        var c := Cycle(WorkingManifest(scanned, dev.base, now), w.files, {}, {}, map[], false, {}, {});
        PutDevice(w, d, dev.(cycle := Some(c), had := dev.had + set p | p in scanned :: (p, scanned[p].hash)))
      case Fetched(d, p, copy) => PutDevice(w, d, Settle(WriteDisk(dev, p, Some(copy)), p))
      case RemovedLocal(d, p) => PutDevice(w, d, Settle(WriteDisk(dev, p, None), p))
      case Send(d, p, now, answered) => Execute(w, d, UploadOp(dev, p), now, answered)
      case SendKept(d, p, now, answered) => Execute(w, d, KeptOp(dev, p), now, answered)
      case TakeRemote(d, p, file) => PutDevice(w, d, Settle(WriteDisk(dev, p, file), p))
      case CopyRemote(d, p, copy) =>
        var q, c := ConflictCopyPath(p), dev.cycle.value;
        PutDevice(w, d, WriteDisk(dev, q, Some(copy)).(
          cycle := Some(c.(copies := c.copies[q := copy.hash], settled := c.settled - {q}))))
      case SendCopy(d, q, now, answered) => Execute(w, d, CopyOp(dev, q), now, answered)
      case HoldBack(d, p, fatal) =>
        var c := dev.cycle.value;
        PutDevice(w, d, dev.(cycle := Some(c.(held := c.held + {p}, fatal := c.fatal || fatal))))
      case Checkpoint(d) =>
        PutDevice(w, d, dev.(base := NextBase(dev.base, w.files, dev.cycle.value.held), cycle := None))
      case Quit(d) => PutDevice(w, d, dev.(cycle := None))
  }

  // ---- The invariant ----------------------------------------------------------------------

  ghost predicate HadOrGone(had: set<(Path, Hash)>, p: Path, v: Version) {
    v.Present? ==> (p, v.hash) in had
  }

  /** The base, and any cycle's idea of the local side, only show versions this device itself had. */
  ghost predicate Grounded(dev: Device) {
    forall p :: !dev.ignore(p) ==>
      && HadOrGone(dev.had, p, At(dev.base, p))
      && (dev.cycle.Some? ==> HadOrGone(dev.had, p, At(dev.cycle.value.working, p)))
  }

  /** A path no other device wrote still has its snapshot row, or shows what this device put there. */
  ghost predicate Tracks(dev: Device, files: Manifest) {
    dev.cycle.Some? ==>
      var c := dev.cycle.value;
      && (forall q :: q in c.copies ==> (q, c.copies[q]) in dev.had)
      && (forall p :: !dev.ignore(p) && p !in c.touched ==>
            && (Get(files, p) == Get(c.remote, p) || HadOrGone(dev.had, p, At(files, p)))
            && (p in c.settled ==> HadOrGone(dev.had, p, At(files, p))))
  }

  ghost predicate Inv(w: World) {
    && LiveHashes(w.files)
    && forall d :: d in w.devices ==> Grounded(w.devices[d]) && Tracks(w.devices[d], w.files)
  }

  /**
   * What the cycle relies on other devices for: what they write between its snapshot and its
   * checkpoint is held back, and a tombstone it uploads over has not been written to meanwhile.
   */
  ghost predicate Undisturbed(w: World, s: Step)
    requires Enabled(w, s)
  {
    && (s.Checkpoint? ==>
          var dev := w.devices[s.d];
          forall p :: p in dev.cycle.value.touched ==> dev.ignore(p) || p in dev.cycle.value.held)
    && (s.Send? ==>
          var c := w.devices[s.d].cycle.value;
          s.p in c.touched ==> !(s.p in c.remote && c.remote[s.p].deleted))
  }

  lemma BeginKeepsInv(w: World, s: Step)
    requires Inv(w) && Enabled(w, s) && s.Begin?
    ensures Inv(Do(w, s))
  {
    var dev, dev' := w.devices[s.d], Do(w, s).devices[s.d];
    forall p | !dev.ignore(p)
      ensures HadOrGone(dev'.had, p, At(dev'.base, p)) && HadOrGone(dev'.had, p, At(dev'.cycle.value.working, p))
    {
      WorkingShowsDisk(dev.disk, dev.base, dev.ignore, s.now, p);
    }
  }

  /** What a cycle sends is something its device had, or a delete. */
  lemma SendsWhatItHad(dev: Device, p: Path)
    requires dev.cycle.Some? && Grounded(dev) && (PlanAt(dev, p).Up? || PlanAt(dev, p) == Clash)
    ensures var op := if PlanAt(dev, p).Up? then UploadOp(dev, p) else KeptOp(dev, p);
            op.path == p && !dev.ignore(p) && (op.Put? ==> (p, op.content) in dev.had)
  {
  }

  lemma ExecuteKeepsInv(w: World, d: DeviceId, op: Op, now: nat, answered: bool)
    requires Inv(w) && InCycle(w, d)
    requires op.Put? ==> (op.path, op.content) in w.devices[d].had
    ensures Inv(Execute(w, d, op, now, answered))
  {
    var w' := Execute(w, d, op, now, answered);
    forall e | e in w.devices ensures Grounded(w'.devices[e]) && Tracks(w'.devices[e], w'.files) {
      if e == d {
        SenderKeepsTrack(w.devices[d], w.files, op, now, answered);
      } else {
        OthersKeepTrack(w.devices[e], w.files, op, now);
      }
    }
  }

  lemma ServesOnePath(files: Manifest, op: Op, now: nat, p: Path)
    requires p != op.path
    ensures Get(Serve(files, op, now), p) == Get(files, p) && At(Serve(files, op, now), p) == At(files, p)
  {
  }

  lemma SenderKeepsTrack(dev: Device, files: Manifest, op: Op, now: nat, answered: bool)
    requires dev.cycle.Some? && Grounded(dev) && Tracks(dev, files) && (op.Put? ==> (op.path, op.content) in dev.had)
    ensures var dev' := Book(dev, ReplyTo(files, op), op.path, answered);
            Grounded(dev') && Tracks(dev', Serve(files, op, now))
  {
    var files' := Serve(files, op, now);
    assert ReplyTo(files, op) == Ok ==> HadOrGone(dev.had, op.path, At(files', op.path));
    forall p | p != op.path ensures Get(files', p) == Get(files, p) && At(files', p) == At(files, p) {
      ServesOnePath(files, op, now, p);
    }
  }

  lemma OthersKeepTrack(dev: Device, files: Manifest, op: Op, now: nat)
    requires Grounded(dev) && Tracks(dev, files)
    ensures var dev' := if Writes(files, op) then Touch(dev, op.path) else dev;
            Grounded(dev') && Tracks(dev', Serve(files, op, now))
  {
    var files' := Serve(files, op, now);
    forall p | p != op.path ensures Get(files', p) == Get(files, p) && At(files', p) == At(files, p) {
      ServesOnePath(files, op, now, p);
    }
  }

  lemma CheckpointKeepsInv(w: World, s: Step)
    requires Inv(w) && Enabled(w, s) && s.Checkpoint? && Undisturbed(w, s)
    ensures Inv(Do(w, s))
  {
    var dev, dev' := w.devices[s.d], Do(w, s).devices[s.d];
    var c := dev.cycle.value;
    forall p | !dev.ignore(p) ensures HadOrGone(dev.had, p, At(dev'.base, p)) {
      NextBaseAt(dev.base, w.files, c.held, p);
      assert HadOrGone(dev.had, p, At(dev.base, p)) && HadOrGone(dev.had, p, At(c.working, p));
      assert !Open(dev, p);
    }
  }

  lemma StepKeepsInv(w: World, s: Step)
    requires Inv(w) && Enabled(w, s) && Undisturbed(w, s)
    ensures Inv(Do(w, s))
  {
    match s
    case Begin(_, _) => BeginKeepsInv(w, s);
    case Checkpoint(_) => CheckpointKeepsInv(w, s);
    case Send(d, p, now, answered) =>
      SendsWhatItHad(w.devices[d], p);
      ExecuteKeepsInv(w, d, UploadOp(w.devices[d], p), now, answered);
    case SendKept(d, p, now, answered) =>
      SendsWhatItHad(w.devices[d], p);
      ExecuteKeepsInv(w, d, KeptOp(w.devices[d], p), now, answered);
    case SendCopy(d, q, now, answered) =>
      ExecuteKeepsInv(w, d, CopyOp(w.devices[d], q), now, answered);
    case _ =>
      LocalStepKeepsInv(w, s);
  }

  lemma LocalStepKeepsInv(w: World, s: Step)
    requires Inv(w) && Enabled(w, s)
    requires !s.Begin? && !s.Checkpoint? && !s.Send? && !s.SendKept? && !s.SendCopy?
    ensures Inv(Do(w, s))
  {
    var w' := Do(w, s);
    if s.Fetched? || s.RemovedLocal? || s.TakeRemote? || s.CopyRemote? {
      DiskStepKeepsTrack(w, s);
    } else {
      if !s.Join? {
        assert Grounded(w.devices[s.d]) && Tracks(w.devices[s.d], w.files);
      }
      assert Grounded(w'.devices[s.d]) && Tracks(w'.devices[s.d], w'.files);
    }
  }

  lemma DiskStepKeepsTrack(w: World, s: Step)
    requires Inv(w) && Enabled(w, s) && (s.Fetched? || s.RemovedLocal? || s.TakeRemote? || s.CopyRemote?)
    ensures var w' := Do(w, s); Grounded(w'.devices[s.d]) && Tracks(w'.devices[s.d], w'.files)
  {
    assert Grounded(w.devices[s.d]) && Tracks(w.devices[s.d], w.files);
  }
}
