/** Whatever the user answers, a cycle in which nothing fails gets to its checkpoint. */
module CarryingOut {
  import opened Types
  import opened Manifests
  import opened SyncRules
  import opened LocalState
  import opened ServerGate
  import opened Protocol
  import opened SoloCycle
  import opened Resume
  import opened Resolution

  /** The pieces of work of a cycle: a planned path, the copy a `KeepBoth` needs first, the upload of a copy. */
  datatype Task = Act(path: Path) | Copy(path: Path) | Deliver(path: Path)

  ghost predicate KeepsBoth(dev: Device, choices: Choices, p: Path)
    requires dev.cycle.Some?
  {
    PlanAt(dev, p) == Clash && Chosen(dev, choices, p) == KeepBoth
  }

  ghost predicate Needs(dev: Device, choices: Choices, t: Task)
    requires dev.cycle.Some?
  {
    var c := dev.cycle.value;
    match t
    case Act(p) => Open(dev, p)
    case Copy(p) => KeepsBoth(dev, choices, p) && Open(dev, p) && ConflictCopyPath(p) !in c.copies
    case Deliver(q) => q in c.copies && q !in c.settled && q !in c.held
  }

  /** Copies still to be written find their paths free. */
  ghost predicate RoomForCopies(w: World, dev: Device, choices: Choices)
    requires dev.cycle.Some?
  {
    forall p :: Needs(dev, choices, Copy(p)) ==> Unoccupied(w, dev, ConflictCopyPath(p))
  }

  ghost predicate OnList(dev: Device, choices: Choices, todo: set<Task>)
    requires dev.cycle.Some?
  {
    && (forall t :: Needs(dev, choices, t) ==> t in todo)
    && (forall p :: Needs(dev, choices, Copy(p)) ==> Deliver(ConflictCopyPath(p)) in todo)
  }

  /** So far nothing failed, everything sent was answered, and only tasks of `todo` are left. */
  ghost predicate OnTrack(w: World, d: DeviceId, choices: Choices, disk0: Disk, todo: set<Task>) {
    && SoloInv(w, d, choices, disk0) && LiveHashes(w.files)
    && var dev := w.devices[d];
       var c := dev.cycle.value;
       && !c.fatal && c.landed <= c.settled && HeldAsAnswered(dev, choices)
       && RoomForCopies(w, dev, choices) && OnList(dev, choices, todo)
  }

  // ---- The step for each task -------------------------------------------------------------

  ghost function FileFor(files: Manifest, p: Path): DiskFile {
    DiskFile(if p in files && files[p].hash != "" then files[p].hash else "0", 0, 0)
  }

  ghost function StepFor(w: World, d: DeviceId, choices: Choices, p: Path): Step
    requires InCycle(w, d) && Open(w.devices[d], p)
  {
    var dev := w.devices[d];
    match PlanAt(dev, p)
    case Up(_) => Send(d, p, 0, true)
    case Down(Download) => Fetched(d, p, FileFor(w.files, p))
    case Down(_) => RemovedLocal(d, p)
    case Clash =>
      match Chosen(dev, choices, p) {
        case KeepRemote =>
          TakeRemote(d, p, if At(dev.cycle.value.remote, p).Gone? then None else Some(FileFor(w.files, p)))
        case Defer => HoldBack(d, p, false)
        case _ => SendKept(d, p, 0, true)
      }
    case Nothing => HoldBack(d, p, false)
  }

  /** What a step leaves of the bookkeeping. */
  ghost predicate Books(dev: Device, dev': Device, settled: set<Path>, held: set<Path>, copies: map<Path, ContentHash>)
    requires dev.cycle.Some?
  {
    && dev'.cycle.Some? && SamePlan(dev, dev')
    && dev'.cycle.value.settled == settled && dev'.cycle.value.held == held && dev'.cycle.value.copies == copies
    && dev'.cycle.value.fatal == dev.cycle.value.fatal
    && dev'.cycle.value.landed <= dev.cycle.value.landed + settled
  }

  lemma ServedFile(w: World, d: DeviceId, choices: Choices, disk0: Disk, p: Path)
    requires SoloInv(w, d, choices, disk0) && LiveHashes(w.files) && p !in w.devices[d].cycle.value.landed
    requires PlanAt(w.devices[d], p) != Nothing && At(w.devices[d].cycle.value.remote, p).Present?
    ensures Serves(w.files, p, FileFor(w.files, p))
  {
    assert PathInv(w, w.devices[d], choices, disk0, p);
  }

  /** Nothing but `at` changes on disk and on the server. */
  ghost predicate OnlyAt(w: World, w': World, d: DeviceId, at: Path) {
    && d in w.devices && d in w'.devices
    && forall q :: q != at ==>
         Get(w'.files, q) == Get(w.files, q) && Get(w'.devices[d].disk, q) == Get(w.devices[d].disk, q)
  }

  ghost predicate IsSent(dev: Device, choices: Choices, p: Path)
    requires dev.cycle.Some?
  {
    || PlanAt(dev, p).Up?
    || (PlanAt(dev, p) == Clash && (Chosen(dev, choices, p) == KeepLocal || Chosen(dev, choices, p) == KeepBoth))
  }

  /** An answered request is settled or held back, at its own path. */
  lemma ExecuteBooks(w: World, d: DeviceId, op: Op)
    requires InCycle(w, d) && LiveHashes(w.files)
    ensures var dev, w' := w.devices[d], Execute(w, d, op, 0, true);
            var c := dev.cycle.value;
            && LiveHashes(w'.files) && OnlyAt(w, w', d, op.path)
            && (if ReplyTo(w.files, op) == Ok then Books(dev, w'.devices[d], c.settled + {op.path}, c.held, c.copies)
                else Books(dev, w'.devices[d], c.settled, c.held + {op.path}, c.copies))
  {
    ExecuteActsOnly(w, d, op, 0, true);
    ServeKeepsHashes(w.files, op);
  }

  lemma ServeKeepsHashes(files: Manifest, op: Op)
    requires LiveHashes(files)
    ensures LiveHashes(Serve(files, op, 0))
  {
  }

  lemma SendWorks(w: World, d: DeviceId, choices: Choices, disk0: Disk, p: Path)
    requires SoloInv(w, d, choices, disk0) && LiveHashes(w.files) && Open(w.devices[d], p) &&
             p !in w.devices[d].cycle.value.landed
    requires KeepsBoth(w.devices[d], choices, p) ==> ConflictCopyPath(p) in w.devices[d].cycle.value.copies
    requires IsSent(w.devices[d], choices, p)
    ensures SoloStep(w, d, choices, StepFor(w, d, choices, p))
    ensures var dev, w' := w.devices[d], Do(w, StepFor(w, d, choices, p));
            var c := dev.cycle.value;
            LiveHashes(w'.files) && OnlyAt(w, w', d, p) && Books(dev, w'.devices[d], c.settled + {p}, c.held, c.copies)
  {
    var dev := w.devices[d];
    SoloServe(w, d, choices, disk0, p, 0);
    var op := if PlanAt(dev, p).Up? then UploadOp(dev, p) else KeptOp(dev, p);
    ExecuteBooks(w, d, op);
    SendIsExecute(w, d, choices, p);
  }

  lemma SendIsExecute(w: World, d: DeviceId, choices: Choices, p: Path)
    requires InCycle(w, d) && Open(w.devices[d], p) && IsSent(w.devices[d], choices, p)
    requires KeepsBoth(w.devices[d], choices, p) ==> ConflictCopyPath(p) in w.devices[d].cycle.value.copies
    ensures var dev, s := w.devices[d], StepFor(w, d, choices, p);
            && SoloStep(w, d, choices, s)
            && Do(w, s) == Execute(w, d, if PlanAt(dev, p).Up? then UploadOp(dev, p) else KeptOp(dev, p), 0, true)
  {
  }

  lemma LocalWorks(w: World, d: DeviceId, choices: Choices, disk0: Disk, p: Path)
    requires SoloInv(w, d, choices, disk0) && LiveHashes(w.files) && Open(w.devices[d], p) &&
             p !in w.devices[d].cycle.value.landed
    requires !IsSent(w.devices[d], choices, p)
    ensures SoloStep(w, d, choices, StepFor(w, d, choices, p))
    ensures var dev, w' := w.devices[d], Do(w, StepFor(w, d, choices, p));
            var c := dev.cycle.value;
            && w'.files == w.files && OnlyAt(w, w', d, p)
            && (if PlanAt(dev, p) == Clash && Chosen(dev, choices, p) == Defer
                then Books(dev, w'.devices[d], c.settled, c.held + {p}, c.copies)
                else Books(dev, w'.devices[d], c.settled + {p}, c.held, c.copies))
  {
    LocalIsEnabled(w, d, choices, disk0, p);
    LocalBooks(w, d, choices, p);
  }

  lemma LocalIsEnabled(w: World, d: DeviceId, choices: Choices, disk0: Disk, p: Path)
    requires SoloInv(w, d, choices, disk0) && LiveHashes(w.files) && Open(w.devices[d], p) &&
             p !in w.devices[d].cycle.value.landed
    requires !IsSent(w.devices[d], choices, p)
    ensures SoloStep(w, d, choices, StepFor(w, d, choices, p))
  {
    if At(w.devices[d].cycle.value.remote, p).Present? {
      ServedFile(w, d, choices, disk0, p);
    }
  }

  lemma LocalBooks(w: World, d: DeviceId, choices: Choices, p: Path)
    requires InCycle(w, d) && Open(w.devices[d], p) && !IsSent(w.devices[d], choices, p) &&
             Enabled(w, StepFor(w, d, choices, p))
    ensures var dev, w' := w.devices[d], Do(w, StepFor(w, d, choices, p));
            var c := dev.cycle.value;
            && w'.files == w.files && OnlyAt(w, w', d, p)
            && (if PlanAt(dev, p) == Clash && Chosen(dev, choices, p) == Defer
                then Books(dev, w'.devices[d], c.settled, c.held + {p}, c.copies)
                else Books(dev, w'.devices[d], c.settled + {p}, c.held, c.copies))
  {
    var s := StepFor(w, d, choices, p);
    if s.HoldBack? {
      HoldBooks(w, s);
    } else {
      SettleBooks(w, s);
    }
  }

  lemma HoldBooks(w: World, s: Step)
    requires Enabled(w, s) && s.HoldBack? && !s.fatal
    ensures var dev, w' := w.devices[s.d], Do(w, s);
            var c := dev.cycle.value;
            w'.files == w.files && OnlyAt(w, w', s.d, s.p) &&
            Books(dev, w'.devices[s.d], c.settled, c.held + {s.p}, c.copies)
  {
  }

  lemma SettleBooks(w: World, s: Step)
    requires Enabled(w, s) && (s.Fetched? || s.RemovedLocal? || s.TakeRemote?)
    ensures var dev, w' := w.devices[s.d], Do(w, s);
            var c := dev.cycle.value;
            w'.files == w.files && OnlyAt(w, w', s.d, s.p) &&
            Books(dev, w'.devices[s.d], c.settled + {s.p}, c.held, c.copies)
  {
  }

  lemma CopyWorks(w: World, d: DeviceId, choices: Choices, disk0: Disk, p: Path)
    requires SoloInv(w, d, choices, disk0) && LiveHashes(w.files) && Open(w.devices[d], p) &&
             p !in w.devices[d].cycle.value.landed
    requires KeepsBoth(w.devices[d], choices, p) && Unoccupied(w, w.devices[d], ConflictCopyPath(p))
    ensures var s, q := CopyRemote(d, p, FileFor(w.files, p)), ConflictCopyPath(p);
            && SoloStep(w, d, choices, s)
            && var w', c := Do(w, s), w.devices[d].cycle.value;
               w'.files == w.files && OnlyAt(w, w', d, q) &&
               Books(w.devices[d], w'.devices[d], c.settled - {q}, c.held, c.copies[q := FileFor(w.files, p).hash])
  {
    var dev := w.devices[d];
    assert At(dev.cycle.value.working, p).Present? && At(dev.cycle.value.remote, p).Present? by {
      BothLive(dev, choices, p);
    }
    ServedFile(w, d, choices, disk0, p);
  }

  /** `KeepBoth` is only carried out with two live sides. */
  lemma BothLive(dev: Device, choices: Choices, p: Path)
    requires dev.cycle.Some? && KeepsBoth(dev, choices, p)
    ensures At(dev.cycle.value.working, p).Present? && At(dev.cycle.value.remote, p).Present?
  {
  }

  /** A copy is accepted, or held back because a row refuses it. */
  lemma DeliverWorks(w: World, d: DeviceId, choices: Choices, disk0: Disk, q: Path)
    requires SoloInv(w, d, choices, disk0) && LiveHashes(w.files) && Needs(w.devices[d], choices, Deliver(q))
    requires q !in w.devices[d].cycle.value.landed
    ensures var s := SendCopy(d, q, 0, true);
            && SoloStep(w, d, choices, s)
            && var w', c := Do(w, s), w.devices[d].cycle.value;
               LiveHashes(w'.files) && OnlyAt(w, w', d, q) &&
               (if RowRefuses(c.remote, q) then Books(w.devices[d], w'.devices[d], c.settled, c.held + {q}, c.copies)
                else Books(w.devices[d], w'.devices[d], c.settled + {q}, c.held, c.copies))
  {
    DeliveryReply(w, d, choices, disk0, q);
    ExecuteBooks(w, d, CopyOp(w.devices[d], q));
    DeliverIsExecute(w, d, choices, q);
  }

  lemma DeliveryReply(w: World, d: DeviceId, choices: Choices, disk0: Disk, q: Path)
    requires SoloInv(w, d, choices, disk0) && q in w.devices[d].cycle.value.copies &&
             q !in w.devices[d].cycle.value.landed
    ensures ReplyTo(w.files, CopyOp(w.devices[d], q)) == Ok <==> !RowRefuses(w.devices[d].cycle.value.remote, q)
  {
    assert PathInv(w, w.devices[d], choices, disk0, q);
    CopyIsAcceptedIff(w, d, q);
  }

  lemma DeliverIsExecute(w: World, d: DeviceId, choices: Choices, q: Path)
    requires InCycle(w, d) && Needs(w.devices[d], choices, Deliver(q))
    ensures SoloStep(w, d, choices, SendCopy(d, q, 0, true))
    ensures Do(w, SendCopy(d, q, 0, true)) == Execute(w, d, CopyOp(w.devices[d], q), 0, true)
  {
  }

  // ---- Staying on track -------------------------------------------------------------------

  lemma SameBoth(dev: Device, dev': Device, choices: Choices, p: Path)
    requires dev.cycle.Some? && dev'.cycle.Some? && SamePlan(dev, dev')
    ensures PlanAt(dev', p) == PlanAt(dev, p) && (KeepsBoth(dev', choices, p) <==> KeepsBoth(dev, choices, p))
    ensures PlanAt(dev, p) == Clash ==> Chosen(dev', choices, p) == Chosen(dev, choices, p)
  {
    SamePlanAt(dev, dev', choices, p);
  }

  lemma RoomStays(w: World, w': World, d: DeviceId, choices: Choices, at: Path)
    requires InCycle(w, d) && RoomForCopies(w, w.devices[d], choices) && OnlyAt(w, w', d, at)
    requires w'.devices[d].cycle.Some? && SamePlan(w.devices[d], w'.devices[d])
    requires forall p :: Needs(w'.devices[d], choices, Copy(p)) ==>
               Needs(w.devices[d], choices, Copy(p)) && ConflictCopyPath(p) != at
    ensures RoomForCopies(w', w'.devices[d], choices)
  {
    forall p | Needs(w'.devices[d], choices, Copy(p)) ensures Unoccupied(w', w'.devices[d], ConflictCopyPath(p)) {
      var q := ConflictCopyPath(p);
      assert Needs(w.devices[d], choices, Copy(p));
      assert Unoccupied(w, w.devices[d], q);
      assert Get(w'.files, q) == Get(w.files, q) && Get(w'.devices[d].disk, q) == Get(w.devices[d].disk, q);
    }
  }

  lemma HeldStays(dev: Device, dev': Device, choices: Choices)
    requires dev.cycle.Some? && dev'.cycle.Some? && SamePlan(dev, dev') && HeldAsAnswered(dev, choices)
    requires forall q :: q in dev.cycle.value.copies ==> q in dev'.cycle.value.copies
    requires forall p :: p in dev'.cycle.value.held && p !in dev.cycle.value.held ==>
               (PlanAt(dev, p) == Clash && Chosen(dev, choices, p) == Defer) ||
               (p in dev.cycle.value.copies && RowRefuses(dev.cycle.value.remote, p))
    ensures HeldAsAnswered(dev', choices)
  {
    forall p | p in dev'.cycle.value.held
      ensures (PlanAt(dev', p) == Clash && Chosen(dev', choices, p) == Defer) ||
              (p in dev'.cycle.value.copies && RowRefuses(dev'.cycle.value.remote, p))
    {
      SameBoth(dev, dev', choices, p);
    }
  }

  /** More settled or held, the same copies: nothing new is needed. */
  lemma NeedsFall(dev: Device, dev': Device, choices: Choices, t: Task)
    requires dev.cycle.Some? && dev'.cycle.Some? && SamePlan(dev, dev')
    requires dev.cycle.value.settled <= dev'.cycle.value.settled && dev.cycle.value.held <= dev'.cycle.value.held
    requires dev.cycle.value.copies == dev'.cycle.value.copies
    ensures Needs(dev', choices, t) ==> Needs(dev, choices, t)
  {
    SameBoth(dev, dev', choices, t.path);
  }

  /** A path that needs a copy elsewhere does not have the copy path planned. */
  lemma CopyPathIsIdle(w: World, d: DeviceId, choices: Choices, p: Path)
    requires InCycle(w, d) && RoomForCopies(w, w.devices[d], choices) && Needs(w.devices[d], choices, Copy(p))
    ensures PlanAt(w.devices[d], ConflictCopyPath(p)) == Nothing &&
            ConflictCopyPath(p) !in w.devices[d].cycle.value.copies
  {
    assert Unoccupied(w, w.devices[d], ConflictCopyPath(p));
  }

  /** Settling or holding back a path or a copy keeps the cycle on track with one task less. */
  lemma TaskDone(w: World, w': World, d: DeviceId, choices: Choices, disk0: Disk, todo: set<Task>, t: Task)
    requires OnTrack(w, d, choices, disk0, todo) && Needs(w.devices[d], choices, t) && !t.Copy?
    requires SoloInv(w', d, choices, disk0) && LiveHashes(w'.files) && OnlyAt(w, w', d, t.path)
    requires var dev := w.devices[d];
             var c := dev.cycle.value;
             || (((t.Act? && PlanAt(dev, t.path) == Clash && Chosen(dev, choices, t.path) == Defer) ||
                  (t.Deliver? && RowRefuses(c.remote, t.path))) &&
                 Books(dev, w'.devices[d], c.settled, c.held + {t.path}, c.copies))
             || Books(dev, w'.devices[d], c.settled + {t.path}, c.held, c.copies)
    ensures OnTrack(w', d, choices, disk0, todo - {t})
  {
    var dev, dev' := w.devices[d], w'.devices[d];
    HeldStays(dev, dev', choices);
    ListAfterTask(dev, dev', choices, todo, t);
    RoomAfterTask(w, w', d, choices, t);
  }

  lemma ListAfterTask(dev: Device, dev': Device, choices: Choices, todo: set<Task>, t: Task)
    requires dev.cycle.Some? && dev'.cycle.Some? && SamePlan(dev, dev') && OnList(dev, choices, todo) && !t.Copy?
    requires dev.cycle.value.settled <= dev'.cycle.value.settled && dev.cycle.value.held <= dev'.cycle.value.held
    requires dev.cycle.value.copies == dev'.cycle.value.copies &&
             t.path in dev'.cycle.value.settled + dev'.cycle.value.held
    requires Needs(dev, choices, t)
    ensures OnList(dev', choices, todo - {t})
  {
    forall u | Needs(dev', choices, u) ensures u in todo - {t} {
      NeedsFall(dev, dev', choices, u);
    }
    forall p | Needs(dev', choices, Copy(p)) ensures Deliver(ConflictCopyPath(p)) in todo - {t} {
      NeedsFall(dev, dev', choices, Copy(p));
      NotItsOwnDelivery(dev, choices, p, t);
    }
  }

  /** A copy that is still to be written is not the one being delivered. */
  lemma NotItsOwnDelivery(dev: Device, choices: Choices, p: Path, t: Task)
    requires dev.cycle.Some? && Needs(dev, choices, Copy(p)) && Needs(dev, choices, t)
    ensures t != Deliver(ConflictCopyPath(p))
  {
  }

  lemma RoomAfterTask(w: World, w': World, d: DeviceId, choices: Choices, t: Task)
    requires InCycle(w, d) && RoomForCopies(w, w.devices[d], choices) && OnlyAt(w, w', d, t.path) && !t.Copy?
    requires var dev, dev' := w.devices[d], w'.devices[d];
             && dev'.cycle.Some? && SamePlan(dev, dev') && Needs(dev, choices, t)
             && dev.cycle.value.settled <= dev'.cycle.value.settled && dev.cycle.value.held <= dev'.cycle.value.held
             && dev.cycle.value.copies == dev'.cycle.value.copies
    ensures RoomForCopies(w', w'.devices[d], choices)
  {
    var dev, dev' := w.devices[d], w'.devices[d];
    forall p | Needs(dev', choices, Copy(p)) ensures Needs(dev, choices, Copy(p)) && ConflictCopyPath(p) != t.path {
      NeedsFall(dev, dev', choices, Copy(p));
      CopyPathIsIdle(w, d, choices, p);
    }
    RoomStays(w, w', d, choices, t.path);
  }

  lemma CopyDone(w: World, w': World, d: DeviceId, choices: Choices, disk0: Disk, todo: set<Task>, p: Path)
    requires OnTrack(w, d, choices, disk0, todo) && Needs(w.devices[d], choices, Copy(p))
    requires var q := ConflictCopyPath(p);
             && SoloInv(w', d, choices, disk0) && w'.files == w.files && OnlyAt(w, w', d, q)
             && var c := w.devices[d].cycle.value;
                Books(w.devices[d], w'.devices[d], c.settled - {q}, c.held, c.copies[q := FileFor(w.files, p).hash])
    ensures OnTrack(w', d, choices, disk0, todo - {Copy(p)})
  {
    var dev, dev', q := w.devices[d], w'.devices[d], ConflictCopyPath(p);
    CopyPathIsIdle(w, d, choices, p);
    assert PathInv(w, dev, choices, disk0, q);
    assert q !in dev.cycle.value.landed;
    HeldStays(dev, dev', choices);
    ListAfterCopy(dev, dev', choices, p, FileFor(w.files, p).hash, todo);
    RoomAfterCopy(w, w', d, choices, p, FileFor(w.files, p).hash);
  }

  lemma RoomAfterCopy(w: World, w': World, d: DeviceId, choices: Choices, p: Path, hash: ContentHash)
    requires InCycle(w, d) && RoomForCopies(w, w.devices[d], choices) && OnlyAt(w, w', d, ConflictCopyPath(p))
    requires Needs(w.devices[d], choices, Copy(p)) && PlanAt(w.devices[d], ConflictCopyPath(p)) == Nothing
    requires var q, c := ConflictCopyPath(p), w.devices[d].cycle.value;
             Books(w.devices[d], w'.devices[d], c.settled - {q}, c.held, c.copies[q := hash])
    ensures RoomForCopies(w', w'.devices[d], choices)
  {
    var dev, dev', q := w.devices[d], w'.devices[d], ConflictCopyPath(p);
    forall p' | Needs(dev', choices, Copy(p')) ensures Needs(dev, choices, Copy(p')) && ConflictCopyPath(p') != q {
      NeedsAfterCopy(dev, dev', choices, p, hash, Copy(p'));
      assert q in dev'.cycle.value.copies;
    }
    RoomStays(w, w', d, choices, q);
  }

  lemma ListAfterCopy(dev: Device, dev': Device, choices: Choices, p: Path, hash: ContentHash, todo: set<Task>)
    requires dev.cycle.Some? && Needs(dev, choices, Copy(p)) && PlanAt(dev, ConflictCopyPath(p)) == Nothing
    requires OnList(dev, choices, todo)
    requires var q, c := ConflictCopyPath(p), dev.cycle.value;
             Books(dev, dev', c.settled - {q}, c.held, c.copies[q := hash])
    ensures OnList(dev', choices, todo - {Copy(p)})
  {
    forall u | Needs(dev', choices, u) ensures u in todo - {Copy(p)} {
      NeedsAfterCopy(dev, dev', choices, p, hash, u);
    }
    forall p' | Needs(dev', choices, Copy(p')) ensures Deliver(ConflictCopyPath(p')) in todo - {Copy(p)} {
      NeedsAfterCopy(dev, dev', choices, p, hash, Copy(p'));
    }
  }

  lemma NeedsAfterCopy(dev: Device, dev': Device, choices: Choices, p: Path, hash: ContentHash, u: Task)
    requires dev.cycle.Some? && Needs(dev, choices, Copy(p)) && PlanAt(dev, ConflictCopyPath(p)) == Nothing
    requires var q, c := ConflictCopyPath(p), dev.cycle.value;
             Books(dev, dev', c.settled - {q}, c.held, c.copies[q := hash])
    ensures Needs(dev', choices, u) ==> u == Deliver(ConflictCopyPath(p)) || (Needs(dev, choices, u) && u != Copy(p))
  {
    SameBoth(dev, dev', choices, u.path);
  }

  // ---- Reaching the checkpoint ------------------------------------------------------------

  /** One step that does a needed task, and the task it does. */
  lemma NextTask(w: World, d: DeviceId, choices: Choices, disk0: Disk, todo: set<Task>, t: Task)
    returns (s: Step, done: Task)
    requires OnTrack(w, d, choices, disk0, todo) && Needs(w.devices[d], choices, t)
    ensures SoloStep(w, d, choices, s) && done in todo && OnTrack(Do(w, s), d, choices, disk0, todo - {done})
  {
    var dev := w.devices[d];
    if t.Deliver? {
      s, done := SendCopy(d, t.path, 0, true), t;
      DeliverWorks(w, d, choices, disk0, t.path);
      StepKeepsSolo(w, d, choices, disk0, s);
      TaskDone(w, Do(w, s), d, choices, disk0, todo, t);
    } else if Needs(dev, choices, Copy(t.path)) {
      s, done := CopyRemote(d, t.path, FileFor(w.files, t.path)), Copy(t.path);
      CopyWorks(w, d, choices, disk0, t.path);
      StepKeepsSolo(w, d, choices, disk0, s);
      CopyDone(w, Do(w, s), d, choices, disk0, todo, t.path);
    } else {
      s, done := StepFor(w, d, choices, t.path), t;
      if IsSent(dev, choices, t.path) {
        SendWorks(w, d, choices, disk0, t.path);
      } else {
        LocalWorks(w, d, choices, disk0, t.path);
      }
      StepKeepsSolo(w, d, choices, disk0, s);
      TaskDone(w, Do(w, s), d, choices, disk0, todo, t);
    }
  }

  lemma {:induction false} CanFinish(w: World, d: DeviceId, choices: Choices, disk0: Disk, todo: set<Task>)
    returns (ws: seq<World>, steps: seq<Step>)
    requires OnTrack(w, d, choices, disk0, todo)
    ensures SoloSteps(ws, steps, d, choices) && ws[0] == w && OnTrack(ws[|steps|], d, choices, disk0, {})
    decreases todo
  {
    if todo == {} {
      ws, steps := [w], [];
    } else if t :| Needs(w.devices[d], choices, t) {
      var s, done := NextTask(w, d, choices, disk0, todo, t);
      var vs, rest := CanFinish(Do(w, s), d, choices, disk0, todo - {done});
      OneStepSooner(w, s, vs, rest, d, choices);
      ws, steps := [w] + vs, [s] + rest;
    } else {
      ws, steps := [w], [];
    }
  }

  lemma NothingLeft(w: World, d: DeviceId, choices: Choices, disk0: Disk)
    requires OnTrack(w, d, choices, disk0, {})
    ensures Ends(w, d, Checkpoint(d))
  {
    var dev := w.devices[d];
    forall p ensures !Open(dev, p) {
      assert Needs(dev, choices, Act(p)) ==> Act(p) in {};
    }
    forall q | q in dev.cycle.value.copies ensures q in dev.cycle.value.settled + dev.cycle.value.held {
      assert Needs(dev, choices, Deliver(q)) ==> Deliver(q) in {};
    }
  }

  /**
   * Whatever the diff shows and the user answers, as long as nothing is at the copy paths of the
   * conflicts of which both sides are kept: there is a cycle that carries the answers out, holds
   * back only what was deferred or refused by a tombstone, and writes its checkpoint.
   */
  lemma ChoicesCanBeCarriedOut(w: World, d: DeviceId, now: nat, choices: Choices)
    returns (ws: seq<World>, steps: seq<Step>)
    requires Enabled(w, Begin(d, now)) && LiveHashes(w.files)
    requires var first := Do(w, Begin(d, now));
             forall p :: KeepsBoth(first.devices[d], choices, p) ==>
                   Unoccupied(first, first.devices[d], ConflictCopyPath(p))
    ensures SoloRun(w, now, ws, steps, Checkpoint(d), d, choices)
    ensures InCycle(ws[|steps|], d) && HeldAsAnswered(ws[|steps|].devices[d], choices)
  {
    var first := Do(w, Begin(d, now));
    var paths := first.devices[d].cycle.value.working.Keys + w.files.Keys;
    var todo := (set p | p in paths :: Act(p)) + (set p | p in paths :: Copy(p)) +
        (set p | p in paths :: Deliver(ConflictCopyPath(p)));
    BeginStartsSolo(w, d, now, choices);
    StartsOnTrack(w, first, d, now, choices, paths, todo);
    ws, steps := CanFinish(first, d, choices, w.devices[d].disk, todo);
    NothingLeft(ws[|steps|], d, choices, w.devices[d].disk);
  }

  lemma StartsOnTrack(w: World, first: World, d: DeviceId, now: nat, choices: Choices, paths: set<Path>,
                      todo: set<Task>)
    requires Enabled(w, Begin(d, now)) && LiveHashes(w.files) && first == Do(w, Begin(d, now))
    requires SoloInv(first, d, choices, w.devices[d].disk)
    requires forall p :: KeepsBoth(first.devices[d], choices, p) ==>
               Unoccupied(first, first.devices[d], ConflictCopyPath(p))
    requires paths == first.devices[d].cycle.value.working.Keys + w.files.Keys
    requires forall p :: p in paths ==> Act(p) in todo && Copy(p) in todo && Deliver(ConflictCopyPath(p)) in todo
    ensures OnTrack(first, d, choices, w.devices[d].disk, todo)
  {
    var dev := first.devices[d];
    forall p | PlanAt(dev, p) != Nothing ensures p in paths {
    }
    forall t | Needs(dev, choices, t) ensures t in todo {
      assert PlanAt(dev, t.path) != Nothing;
    }
  }
}
