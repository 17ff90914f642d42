/** `complete_sync` of `core/src/sync_engine.rs`: resolutions, uploads, the hold-back set and the checkpoint. */
module Complete {
  import opened Types
  import opened Manifests
  import opened SyncRules
  import opened LocalState
  import opened Uploads

  datatype Outcome<+T> = Done(value: T) | MissingResolution(path: Path) | TransferError(path: Path)

  datatype Resolution = Resolution(path: Path, choice: Choice)

  /** The last answer for a path counts. */
  function ResolutionMap(resolutions: seq<Resolution>): map<Path, Choice> {
    if resolutions == [] then map[]
    else
      var last := resolutions[|resolutions| - 1];
      ResolutionMap(resolutions[..|resolutions| - 1])[last.path := last.choice]
  }

  /** Fills the gaps in the user's answers with `Defer`. */
  method DeferTheRest(conflicts: seq<Conflict>, resolutions: seq<Resolution>) returns (all: seq<Resolution>)
    ensures resolutions <= all
    ensures var given, full := ResolutionMap(resolutions), ResolutionMap(all);
            && (forall p :: p in given ==> p in full && full[p] == given[p])
            && (forall p :: p in full && p !in given ==> full[p] == Defer && exists c :: c in conflicts && c.path == p)
            && (forall c :: c in conflicts ==> c.path in full)
  {
    ghost var given := ResolutionMap(resolutions);
    var answered := set k | 0 <= k < |resolutions| :: resolutions[k].path;
    AnsweredPaths(resolutions);
    all := resolutions;
    for k := 0 to |conflicts|
      invariant resolutions <= all
      invariant forall p :: p in given ==> p in ResolutionMap(all) && ResolutionMap(all)[p] == given[p]
      invariant forall p :: p in ResolutionMap(all) && p !in given ==>
                  ResolutionMap(all)[p] == Defer && exists c :: c in conflicts && c.path == p
      invariant forall j :: 0 <= j < k ==> conflicts[j].path in ResolutionMap(all)
    {
      if conflicts[k].path !in answered {
        assert (all + [Resolution(conflicts[k].path, Defer)])[..|all|] == all;
        all := all + [Resolution(conflicts[k].path, Defer)];
      }
    }
  }

  lemma {:induction false} AnsweredPaths(resolutions: seq<Resolution>)
    ensures ResolutionMap(resolutions).Keys == set k | 0 <= k < |resolutions| :: resolutions[k].path
  {
    if resolutions != [] {
      var front := resolutions[..|resolutions| - 1];
      AnsweredPaths(front);
      assert forall k :: 0 <= k < |front| ==> front[k] == resolutions[k];
      assert (set k | 0 <= k < |resolutions| :: resolutions[k].path) ==
             (set k | 0 <= k < |front| :: front[k].path) + {resolutions[|resolutions| - 1].path};
    }
  }

  // ---- Applying the choices ---------------------------------------------------------------

  datatype Resolved = Resolved(uploads: seq<SyncAction>, deferred: seq<Conflict>)

  function CopyUpload(c: Conflict, f: DiskFile): SyncAction {
    SyncAction(ConflictCopyPath(c.path), Upload, Some(Entry(f)), None)
  }

  /** The uploads a conflict's choice queues; `fetch` is what the server serves for a path. */
  function QueuedFor(choices: map<Path, Choice>, fetch: Path -> Option<DiskFile>, c: Conflict): seq<SyncAction> {
    match ChoiceFor(choices, c)
    case KeepLocal => [ConflictToUpload(c)]
    case KeepBoth => [ConflictToUpload(c)] + if fetch(c.path).Some? then [CopyUpload(c, fetch(c.path).value)] else []
    case _ => []
  }

  /** What the choice does to the disk at once. */
  function DiskFor(choices: map<Path, Choice>, fetch: Path -> Option<DiskFile>, c: Conflict, disk: Disk): Disk {
    match ChoiceFor(choices, c)
    case KeepRemote =>
      if c.remote.deleted then disk - {c.path}
      else if fetch(c.path).Some? then disk[c.path := fetch(c.path).value] else disk
    case KeepBoth => if fetch(c.path).Some? then disk[ConflictCopyPath(c.path) := fetch(c.path).value] else disk
    case _ => disk
  }

  function Queued(choices: map<Path, Choice>, fetch: Path -> Option<DiskFile>, cs: seq<Conflict>): seq<SyncAction> {
    if cs == [] then [] else Queued(choices, fetch, cs[..|cs| - 1]) + QueuedFor(choices, fetch, cs[|cs| - 1])
  }

  function DiskAfter(choices: map<Path, Choice>, fetch: Path -> Option<DiskFile>, cs: seq<Conflict>, disk: Disk): Disk {
    if cs == [] then disk
    else DiskFor(choices, fetch, cs[|cs| - 1], DiskAfter(choices, fetch, cs[..|cs| - 1], disk))
  }

  function Deferred(choices: map<Path, Choice>, cs: seq<Conflict>): (ds: seq<Conflict>)
    ensures forall c :: c in ds <==> c in cs && ChoiceFor(choices, c) == Defer
  {
    if cs == [] then []
    else
      var last := cs[|cs| - 1];
      assert cs == cs[..|cs| - 1] + [last];
      Deferred(choices, cs[..|cs| - 1]) + if ChoiceFor(choices, last) == Defer then [last] else []
  }

  /** A choice that cannot be carried out without the server's version. */
  predicate NeedsFetch(choices: map<Path, Choice>, c: Conflict) {
    var choice := ChoiceFor(choices, c);
    choice == KeepBoth || (choice == KeepRemote && !c.remote.deleted)
  }

  predicate CanApply(choices: map<Path, Choice>, fetch: Path -> Option<DiskFile>, c: Conflict) {
    c.path in choices && (NeedsFetch(choices, c) ==> fetch(c.path).Some?)
  }

  /** Uploads, deferred conflicts and disk after the conflicts of `cs`, every one of which could be applied. */
  ghost predicate AppliedTo(choices: map<Path, Choice>, fetch: Path -> Option<DiskFile>, cs: seq<Conflict>,
                            upload: seq<SyncAction>, disk0: Disk, resolved: Resolved, disk: Disk) {
    && (forall c :: c in cs ==> CanApply(choices, fetch, c))
    && resolved == Resolved(upload + Queued(choices, fetch, cs), Deferred(choices, cs))
    && disk == DiskAfter(choices, fetch, cs, disk0)
  }

  /** What the disk does to a conflict: its file cannot be written or removed, or a written copy cannot be hashed. */
  datatype Trouble = Smooth | Unwritable | Unhashable

  /** The conflict could be applied, but the disk does not let it; a file already missing needs no removal. */
  predicate Spoiled(choices: map<Path, Choice>, trouble: Path -> Trouble, c: Conflict, disk: Disk) {
    match ChoiceFor(choices, c)
    case KeepRemote => trouble(c.path).Unwritable? && (c.remote.deleted ==> c.path in disk)
    case KeepBoth => !trouble(c.path).Smooth?
    case _ => false
  }

  /** What an error at this conflict leaves: a copy that could not be hashed stays written. */
  function DiskOnError(choices: map<Path, Choice>, fetch: Path -> Option<DiskFile>, trouble: Path -> Trouble,
                       c: Conflict, disk: Disk): Disk {
    if CanApply(choices, fetch, c) && ChoiceFor(choices, c) == KeepBoth && trouble(c.path).Unhashable?
    then DiskFor(choices, fetch, c, disk)
    else disk
  }

  /**
   * The first conflict that could not be applied, or that the disk did not let through; those before it
   * have taken effect on disk, and of this one at most the copy.
   */
  ghost predicate StoppedAt(choices: map<Path, Choice>, fetch: Path -> Option<DiskFile>, trouble: Path -> Trouble,
                            cs: seq<Conflict>, disk0: Disk, disk: Disk, k: nat) {
    && k < |cs|
    && var before := DiskAfter(choices, fetch, cs[..k], disk0);
       && (forall c :: c in cs[..k] ==> CanApply(choices, fetch, c))
       && NoneSpoiled(choices, fetch, trouble, cs, disk0, k)
       && (!CanApply(choices, fetch, cs[k]) || Spoiled(choices, trouble, cs[k], before))
       && disk == DiskOnError(choices, fetch, trouble, cs[k], before)
  }

  ghost predicate NoneSpoiled(choices: map<Path, Choice>, fetch: Path -> Option<DiskFile>, trouble: Path -> Trouble,
                              cs: seq<Conflict>, disk0: Disk, n: nat)
    requires n <= |cs|
  {
    forall i {:trigger cs[..i]} :: 0 <= i < n ==>
      !Spoiled(choices, trouble, cs[i], DiskAfter(choices, fetch, cs[..i], disk0))
  }

  lemma AppliedToOneMore(choices: map<Path, Choice>, fetch: Path -> Option<DiskFile>, cs: seq<Conflict>, c: Conflict,
                         upload: seq<SyncAction>, disk0: Disk, resolved: Resolved, disk: Disk)
    requires AppliedTo(choices, fetch, cs, upload, disk0, resolved, disk) && CanApply(choices, fetch, c)
    ensures AppliedTo(choices, fetch, cs + [c], upload, disk0,
              Resolved(resolved.uploads + QueuedFor(choices, fetch, c),
                       resolved.deferred + if ChoiceFor(choices, c) == Defer then [c] else []),
              DiskFor(choices, fetch, c, disk))
  {
    assert (cs + [c])[..|cs|] == cs;
    assert upload + Queued(choices, fetch, cs) + QueuedFor(choices, fetch, c) ==
           upload + (Queued(choices, fetch, cs) + QueuedFor(choices, fetch, c));
  }

  /** The first `n` conflicts are applied, none of them spoiled. */
  ghost predicate CarriedOut(choices: map<Path, Choice>, fetch: Path -> Option<DiskFile>, trouble: Path -> Trouble,
                             cs: seq<Conflict>, upload: seq<SyncAction>, disk0: Disk, n: nat, resolved: Resolved,
                             disk: Disk)
    requires n <= |cs|
  {
    AppliedTo(choices, fetch, cs[..n], upload, disk0, resolved, disk) &&
    NoneSpoiled(choices, fetch, trouble, cs, disk0, n)
  }

  lemma NoneCarried(choices: map<Path, Choice>, fetch: Path -> Option<DiskFile>, trouble: Path -> Trouble,
                    cs: seq<Conflict>, upload: seq<SyncAction>, disk0: Disk)
    ensures CarriedOut(choices, fetch, trouble, cs, upload, disk0, 0, Resolved(upload, []), disk0)
  {
    assert upload + [] == upload;
  }

  lemma AllCarried(choices: map<Path, Choice>, fetch: Path -> Option<DiskFile>, trouble: Path -> Trouble,
                   cs: seq<Conflict>, upload: seq<SyncAction>, disk0: Disk, resolved: Resolved, disk: Disk)
    requires CarriedOut(choices, fetch, trouble, cs, upload, disk0, |cs|, resolved, disk)
    ensures AppliedTo(choices, fetch, cs, upload, disk0, resolved, disk)
    ensures NoneSpoiled(choices, fetch, trouble, cs, disk0, |cs|)
  {
    assert cs[..|cs|] == cs;
  }

  lemma CarriedOneMore(choices: map<Path, Choice>, fetch: Path -> Option<DiskFile>, trouble: Path -> Trouble,
                       cs: seq<Conflict>, upload: seq<SyncAction>, disk0: Disk, n: nat, resolved: Resolved, disk: Disk)
    requires n < |cs| && CarriedOut(choices, fetch, trouble, cs, upload, disk0, n, resolved, disk)
    requires CanApply(choices, fetch, cs[n]) && !Spoiled(choices, trouble, cs[n], disk)
    ensures CarriedOut(choices, fetch, trouble, cs, upload, disk0, n + 1,
              Resolved(resolved.uploads + QueuedFor(choices, fetch, cs[n]),
                       resolved.deferred + if ChoiceFor(choices, cs[n]) == Defer then [cs[n]] else []),
              DiskFor(choices, fetch, cs[n], disk))
  {
    AppliedToOneMore(choices, fetch, cs[..n], cs[n], upload, disk0, resolved, disk);
    assert cs[..n + 1] == cs[..n] + [cs[n]];
  }

  lemma StopsHere(choices: map<Path, Choice>, fetch: Path -> Option<DiskFile>, trouble: Path -> Trouble,
                  cs: seq<Conflict>, upload: seq<SyncAction>, disk0: Disk, n: nat, resolved: Resolved, disk: Disk)
    requires n < |cs| && CarriedOut(choices, fetch, trouble, cs, upload, disk0, n, resolved, disk)
    requires !CanApply(choices, fetch, cs[n]) || Spoiled(choices, trouble, cs[n], disk)
    ensures StoppedAt(choices, fetch, trouble, cs, disk0, DiskOnError(choices, fetch, trouble, cs[n], disk), n)
  {
  }

  /** Every conflict is answered and carried out, or the first that is not is the error. */
  method ApplyResolutions(upload: seq<SyncAction>, conflicts: seq<Conflict>, resolutions: seq<Resolution>,
                          fetch: Path -> Option<DiskFile>, trouble: Path -> Trouble, disk0: Disk)
    returns (r: Outcome<Resolved>, disk: Disk, ghost k: nat)
    ensures r.Done? ==> AppliedTo(ResolutionMap(resolutions), fetch, conflicts, upload, disk0, r.value, disk)
    ensures r.Done? ==> NoneSpoiled(ResolutionMap(resolutions), fetch, trouble, conflicts, disk0, |conflicts|)
    ensures !r.Done? ==> StoppedAt(ResolutionMap(resolutions), fetch, trouble, conflicts, disk0, disk, k)
    ensures !r.Done? ==> r.path == conflicts[k].path
    ensures r.MissingResolution? ==> r.path !in ResolutionMap(resolutions)
    ensures r.TransferError? ==> r.path in ResolutionMap(resolutions)
  {
    var choices := ResolutionMap(resolutions);
    var resolved := Resolved(upload, []);
    disk := disk0;
    NoneCarried(choices, fetch, trouble, conflicts, upload, disk0);
    var n := 0;
    k := 0;
    while n < |conflicts|
      invariant n <= |conflicts|
      invariant CarriedOut(choices, fetch, trouble, conflicts, upload, disk0, n, resolved, disk)
    {
      var c := conflicts[n];
      k := n;
      if c.path !in choices {
        StopsHere(choices, fetch, trouble, conflicts, upload, disk0, n, resolved, disk);
        return MissingResolution(c.path), disk, k;
      }
      var ok, queued, written := ApplyChoice(choices, fetch, trouble, c, disk);
      if !ok {
        StopsHere(choices, fetch, trouble, conflicts, upload, disk0, n, resolved, disk);
        return TransferError(c.path), written, k;
      }
      CarriedOneMore(choices, fetch, trouble, conflicts, upload, disk0, n, resolved, disk);
      disk := written;
      resolved := Resolved(resolved.uploads + queued,
                           resolved.deferred + if ChoiceFor(choices, c) == Defer then [c] else []);
      n := n + 1;
    }
    AllCarried(choices, fetch, trouble, conflicts, upload, disk0, resolved, disk);
    r := Done(resolved);
  }

  /** One conflict: `KeepLocal` queues an upload, `KeepRemote` writes or deletes the file, `KeepBoth` does both. */
  method ApplyChoice(choices: map<Path, Choice>, fetch: Path -> Option<DiskFile>, trouble: Path -> Trouble,
                     c: Conflict, disk0: Disk)
    returns (ok: bool, queued: seq<SyncAction>, disk: Disk)
    requires c.path in choices
    ensures ok <==> CanApply(choices, fetch, c) && !Spoiled(choices, trouble, c, disk0)
    ensures !ok ==> disk == DiskOnError(choices, fetch, trouble, c, disk0)
    ensures ok ==> queued == QueuedFor(choices, fetch, c) && disk == DiskFor(choices, fetch, c, disk0)
  {
    ok, queued, disk := true, [], disk0;
    var fetched := fetch(c.path);
    match EffectiveChoice(choices[c.path], c) {
      case Defer =>
      case KeepLocal => queued := [ConflictToUpload(c)];
      case KeepRemote =>
        if c.remote.deleted {
          if c.path in disk {
            if trouble(c.path).Unwritable? {
              ok := false;
            } else {
              disk := disk - {c.path};
            }
          }
        } else if fetched.None? || trouble(c.path).Unwritable? {
          ok := false;
        } else {
          disk := disk[c.path := fetched.value];
        }
      case KeepBoth =>
        if fetched.None? || trouble(c.path).Unwritable? {
          ok := false;
        } else {
          disk := disk[ConflictCopyPath(c.path) := fetched.value];
          ok := trouble(c.path).Smooth?;
          queued := [ConflictToUpload(c)] + [CopyUpload(c, fetched.value)];
        }
    }
  }

  // ---- The whole of complete_sync ---------------------------------------------------------

  datatype SyncResult =
    SyncResult(upload: seq<SyncAction>, conflicts: seq<Conflict>, failures: seq<SyncFailure>, checkpointFailed: bool)

  ghost predicate AnyFatal(failures: seq<SyncFailure>) {
    exists f :: f in failures && f.fatal
  }

  /** The paths a result reports as failed or still in conflict. */
  ghost predicate Reported(result: SyncResult, p: Path) {
    || (exists f :: f in result.failures && f.path == p)
    || (exists c :: c in result.conflicts && c.path == p)
  }

  method HasFatal(failures: seq<SyncFailure>) returns (fatal: bool)
    ensures fatal <==> AnyFatal(failures)
  {
    fatal := false;
    for k := 0 to |failures|
      invariant fatal <==> exists j :: 0 <= j < k && failures[j].fatal
    {
      fatal := fatal || failures[k].fatal;
    }
  }

  /** What is held back before anything is sent. */
  function HeldAtFirst(failures: seq<SyncFailure>, deferred: seq<Conflict>): set<Path> {
    (set f | f in failures :: f.path) + (set c | c in deferred :: c.path)
  }

  /** What the disk and the server do during a round: the version served for a path, the files that can be read,
      the answer to each batch, and the manifest of the second fetch if it succeeds. */
  datatype Surroundings =
    Surroundings(fetch: Path -> Option<DiskFile>, readable: nat -> bool, answer: nat -> BatchReply,
                 refetched: Option<Manifest>)

  ghost predicate Checkpointed(env: Surroundings, result: SyncResult) {
    !AnyFatal(result.failures) && env.refetched.Some?
  }

  /** The choices carried out, every upload with the fate its answer dictates, and all of it reported. */
  ghost predicate Reports(plan: SyncPlan, resolutions: seq<Resolution>, env: Surroundings, disk0: Disk,
                          result: SyncResult, disk: Disk, g: Progress, batches: seq<Range>) {
    var choices := ResolutionMap(resolutions);
    var deferred := Deferred(choices, plan.conflicts);
    && AppliedTo(choices, env.fetch, plan.conflicts, plan.upload, disk0, Resolved(result.upload, deferred), disk)
    && Splits(Sizes(result.upload), batches, |result.upload|)
    && Accounts(result.upload, HeldAtFirst(plan.failures, deferred), g)
    && AsDictated(result.upload, env.readable, env.answer, batches, |batches|, g.fates)
    && (Untouched in g.fates ==> AnyFatal(g.failures))
    && result.failures == plan.failures + g.failures
    && result.conflicts == deferred + g.late
  }

  /** A round of `complete_sync` that returned a result. */
  ghost predicate Completed(plan: SyncPlan, resolutions: seq<Resolution>, env: Surroundings, base: Manifest,
                            disk0: Disk, result: SyncResult, base': Manifest, disk: Disk, g: Progress,
                            batches: seq<Range>) {
    && Reports(plan, resolutions, env, disk0, result, disk, g, batches)
    && base' == (if Checkpointed(env, result) then NextBase(base, env.refetched.value, g.held) else base)
    && (result.checkpointFailed <==> !AnyFatal(result.failures) && env.refetched.None?)
  }

  /**
   * The whole round: an error before anything is sent, or a result in which every upload has the
   * fate its answer dictates, every failure and late conflict is one of those fates, and the base
   * moves only without a fatal failure, to the re-fetched manifest outside what is held back.
   */
  method CompleteSync(plan: SyncPlan, resolutions: seq<Resolution>, env: Surroundings, trouble: Path -> Trouble,
                      base: Manifest, disk0: Disk)
    returns (r: Outcome<SyncResult>, base': Manifest, disk: Disk, ghost g: Progress, ghost batches: seq<Range>,
             ghost k: nat)
    ensures r.Done? ==> Completed(plan, resolutions, env, base, disk0, r.value, base', disk, g, batches)
    ensures !r.Done? ==> base' == base
    ensures !r.Done? ==> StoppedAt(ResolutionMap(resolutions), env.fetch, trouble, plan.conflicts, disk0, disk, k)
    ensures !r.Done? ==> r.path == plan.conflicts[k].path
    ensures r.MissingResolution? ==> r.path !in ResolutionMap(resolutions)
    ensures r.TransferError? ==> r.path in ResolutionMap(resolutions)
  {
    var applied;
    base', g, batches := base, Progress(0, [], [], {}, []), [];
    applied, disk, k := ApplyResolutions(plan.upload, plan.conflicts, resolutions, env.fetch, trouble, disk0);
    match applied {
      case MissingResolution(p) => r := MissingResolution(p);
      case TransferError(p) => r := TransferError(p);
      case Done(resolved) =>
        var sent, ranges := RunUploads(resolved.uploads, env.readable, env.answer,
                                       HeldAtFirst(plan.failures, resolved.deferred));
        g, batches := sent, ranges;
        var failures, conflicts := plan.failures + sent.failures, resolved.deferred + sent.late;
        var fatal := HasFatal(failures);
        if !fatal && env.refetched.Some? {
          base' := CheckpointManifest(base, env.refetched.value, sent.held);
        }
        r := Done(SyncResult(resolved.uploads, conflicts, failures, !fatal && env.refetched.None?));
    }
  }

  /** The hold-back set is exactly what the result reports as failed or still in conflict. */
  lemma HeldIsReported(plan: SyncPlan, resolutions: seq<Resolution>, env: Surroundings, disk0: Disk,
                       result: SyncResult, disk: Disk, g: Progress, batches: seq<Range>, p: Path)
    requires Reports(plan, resolutions, env, disk0, result, disk, g, batches)
    ensures p in g.held <==> Reported(result, p)
  {
    var deferred := Deferred(ResolutionMap(resolutions), plan.conflicts);
    if p in HeldAtFirst(plan.failures, deferred) {
      if f :| f in plan.failures && f.path == p {
        assert f in result.failures;
      } else {
        var c :| c in deferred && c.path == p;
        assert c in result.conflicts;
      }
    } else if p in g.held {
      HeldForAFate(result.upload, HeldAtFirst(plan.failures, deferred), g, p);
    } else {
      assert forall f :: f in result.failures ==> f in plan.failures || f in g.failures;
      assert forall c :: c in result.conflicts ==> c in deferred || c in g.late;
    }
  }

  lemma HeldForAFate(uploads: seq<SyncAction>, held0: set<Path>, g: Progress, p: Path)
    requires Accounts(uploads, held0, g) && p in g.held && p !in held0
    ensures (exists f :: f in g.failures && f.path == p) || (exists c :: c in g.late && c.path == p)
  {
    var i :| 0 <= i < |uploads| && (g.fates[i].Failed? || g.fates[i].Late?) && uploads[i].path == p;
    if g.fates[i].Failed? {
      assert FailureOf(uploads[i], g.fates[i].fatal) in g.failures;
    } else {
      assert LateConflict(uploads[i], g.fates[i].current) in g.late;
    }
  }

  /** When the base moves, every upload was answered with success, had nothing to send, or is held back. */
  lemma CheckpointedMeansSentOrHeld(plan: SyncPlan, resolutions: seq<Resolution>, env: Surroundings, disk0: Disk,
                                    result: SyncResult, disk: Disk, g: Progress, batches: seq<Range>, i: nat)
    requires Reports(plan, resolutions, env, disk0, result, disk, g, batches) && Checkpointed(env, result) &&
             i < |result.upload|
    ensures g.fates[i] == Succeeded || result.upload[i].path in g.held
    ensures exists k :: 0 <= k < |batches| && batches[k].start <= i < batches[k].end &&
              g.fates[i] == FateIn(result.upload, env.readable, env.answer, batches[k], i)
  {
    var uploads := result.upload;
    assert forall f :: f in g.failures ==> f in result.failures;
    assert g.fates[i] in g.fates;
    var k := BatchOf(Sizes(uploads), batches, |batches|, i);
    assert g.fates[i] == if StoppedBefore(uploads, env.readable, env.answer, batches, k) then Untouched
                         else FateIn(uploads, env.readable, env.answer, batches[k], i);
  }
}
