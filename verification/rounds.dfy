/**
 * A whole cycle of `core/src/sync_engine.rs` as its caller sees it: one preparation, then one or two rounds of
 * completion.
 */
module Rounds {
  import opened Types
  import opened Manifests
  import opened SyncRules
  import opened LocalState
  import opened Uploads
  import opened Complete
  import Downloads

  // ---- Preparation ------------------------------------------------------------------------

  /** The actions of a plan with, or without, the kind `DeleteLocal`, in order. */
  function OfKind(actions: seq<SyncAction>, deletes: bool): (r: seq<SyncAction>)
    ensures forall a :: a in r <==> a in actions && (a.kind == DeleteLocal <==> deletes)
  {
    if actions == [] then []
    else
      var last := actions[|actions| - 1];
      assert actions == actions[..|actions| - 1] + [last];
      OfKind(actions[..|actions| - 1], deletes) + if (last.kind == DeleteLocal) == deletes then [last] else []
  }

  /** One run of `apply_downloads`: the deletes one by one, then some interleaving of the fetches. */
  datatype Preparation =
    Preparation(disk0: Disk, mid: Disk, deleteFailures: seq<SyncFailure>,
                states: seq<Downloads.State>, steps: seq<Downloads.FetchStep>, fetchFailures: seq<SyncFailure>)

  ghost predicate Prepares(d: ManifestDiff, prep: Preparation) {
    && Downloads.Deleted(OfKind(d.download, true), prep.disk0, prep.mid, prep.deleteFailures)
    && Downloads.IsRun(OfKind(d.download, false), prep.mid, prep.states, prep.steps)
    && Downloads.Finished(prep.states[|prep.steps|])
    && Downloads.Collects(OfKind(d.download, false), prep.states[|prep.steps|], prep.fetchFailures)
  }

  ghost function Last(prep: Preparation): Downloads.State
    requires |prep.states| == |prep.steps| + 1
  {
    prep.states[|prep.steps|]
  }

  function PlanOf(d: ManifestDiff, prep: Preparation): SyncPlan {
    SyncPlan(d.upload, d.download, d.conflicts, prep.deleteFailures + prep.fetchFailures)
  }

  /** A planned download is on disk as it was fetched; a planned local delete is done. */
  ghost predicate IsApplied(d: ManifestDiff, prep: Preparation, a: SyncAction)
    requires Prepares(d, prep)
  {
    var fetches, s := OfKind(d.download, false), Last(prep);
    if a.kind == DeleteLocal then OnDisk(s.disk, a.path).Gone?
    else exists i ::
      0 <= i < |fetches| && fetches[i] == a && s.fetches[i].Written? && Get(s.disk, a.path) == Some(s.fetches[i].file)
  }

  lemma {:induction false} OfKindDistinct(actions: seq<SyncAction>, deletes: bool)
    requires Downloads.DistinctPaths(actions)
    ensures Downloads.DistinctPaths(OfKind(actions, deletes))
  {
    if actions != [] {
      var front, last := actions[..|actions| - 1], actions[|actions| - 1];
      OfKindDistinct(front, deletes);
      var r := OfKind(front, deletes);
      forall i | 0 <= i < |r| ensures r[i].path != last.path {
        assert r[i] in r;
      }
    }
  }

  // ---- What a written checkpoint means for the downloads ----------------------------------

  lemma SkippedIsFatal(d: ManifestDiff, prep: Preparation)
    requires OnceEach(d) && Prepares(d, prep) && Downloads.Skipped in Last(prep).fetches
    ensures AnyFatal(PlanOf(d, prep).failures)
  {
    OfKindDistinct(d.download, false);
    Downloads.FetchesAreAccountedFor(OfKind(d.download, false), prep.mid, prep.states, prep.steps, prep.fetchFailures);
    var f :| f in prep.fetchFailures && f.fatal;
    assert f in PlanOf(d, prep).failures;
  }

  /** Without a fatal failure, each planned download and local delete is applied or its failure is recorded. */
  lemma AppliedOrRecorded(d: ManifestDiff, prep: Preparation, a: SyncAction)
    requires OnceEach(d) && Prepares(d, prep) && !AnyFatal(PlanOf(d, prep).failures) && a in d.download
    ensures IsApplied(d, prep, a) || exists f :: f in PlanOf(d, prep).failures && f.path == a.path
  {
    var deletes, fetches, failures := OfKind(d.download, true), OfKind(d.download, false), PlanOf(d, prep).failures;
    assert forall f :: f in prep.deleteFailures || f in prep.fetchFailures ==> f in failures;
    OfKindDistinct(d.download, false);
    Downloads.FetchesAreAccountedFor(fetches, prep.mid, prep.states, prep.steps, prep.fetchFailures);
    if a.kind == DeleteLocal {
      assert a in deletes;
      var i :| 0 <= i < |deletes| && deletes[i] == a;
      OtherPathsStay(d, prep, a);
    } else {
      assert a in fetches;
      var i :| 0 <= i < |fetches| && fetches[i] == a;
      assert Last(prep).fetches[i].Written? || SyncFailure(fetches[i].path, Download, false) in prep.fetchFailures;
    }
  }

  /** The fetches leave the deleted paths alone. */
  lemma OtherPathsStay(d: ManifestDiff, prep: Preparation, a: SyncAction)
    requires OnceEach(d) && Prepares(d, prep) && a in OfKind(d.download, true)
    ensures Get(Last(prep).disk, a.path) == Get(prep.mid, a.path)
  {
    var fetches := OfKind(d.download, false);
    OfKindDistinct(d.download, false);
    Downloads.FetchesAreAccountedFor(fetches, prep.mid, prep.states, prep.steps, prep.fetchFailures);
    forall i | 0 <= i < |fetches| ensures fetches[i].path != a.path {
      assert fetches[i] in fetches && fetches[i] != a;
      DistinctActions(d.download, fetches[i], a);
    }
  }

  lemma DistinctActions(actions: seq<SyncAction>, a: SyncAction, b: SyncAction)
    requires Downloads.DistinctPaths(actions) && a in actions && b in actions && a != b
    ensures a.path != b.path
  {
  }

  ghost predicate Reaches(c: Conflict, p: Path) {
    c.path == p || (!c.local.deleted && !c.remote.deleted && ConflictCopyPath(c.path) == p)
  }

  /**
   * A path the user can have a round write or hold back: a conflict's own, or the copy path of one with two
   * live sides.
   */
  ghost predicate Reachable(conflicts: seq<Conflict>, p: Path) {
    exists c :: c in conflicts && Reaches(c, p)
  }

  lemma OneConflictReaches(choices: map<Path, Choice>, fetch: Path -> Option<DiskFile>, c: Conflict, disk: Disk,
                           p: Path)
    ensures Get(DiskFor(choices, fetch, c, disk), p) == Get(disk, p) || Reaches(c, p)
    ensures forall a :: a in QueuedFor(choices, fetch, c) ==> Reaches(c, a.path)
  {
  }

  lemma {:induction false} UnreachableStays(choices: map<Path, Choice>, fetch: Path -> Option<DiskFile>,
                                            cs: seq<Conflict>, disk: Disk, p: Path)
    requires !Reachable(cs, p)
    ensures Get(DiskAfter(choices, fetch, cs, disk), p) == Get(disk, p)
  {
    if cs != [] {
      var front, last := cs[..|cs| - 1], cs[|cs| - 1];
      assert last in cs && forall c :: c in front ==> c in cs;
      UnreachableStays(choices, fetch, front, disk, p);
      OneConflictReaches(choices, fetch, last, DiskAfter(choices, fetch, front, disk), p);
    }
  }

  /**
   * Checkpoint soundness over every interleaving of the fetches and every round that follows: if the
   * base moved, each planned download and local delete was applied or its path kept its old base
   * entry; what was applied is still there unless a conflict copy was written over it; and if a
   * fetch was never attempted, the base did not move.
   */
  lemma CheckpointedMeansAppliedOrHeld(d: ManifestDiff, prep: Preparation, resolutions: seq<Resolution>,
                                       env: Surroundings, base: Manifest, result: SyncResult, base': Manifest,
                                       disk: Disk, g: Progress, batches: seq<Range>)
    requires OnceEach(d) && Prepares(d, prep)
    requires Completed(PlanOf(d, prep), resolutions, env, base, Last(prep).disk, result, base', disk, g, batches)
    ensures Downloads.Skipped in Last(prep).fetches ==> base' == base
    ensures base' != base ==> Checkpointed(env, result)
    ensures Checkpointed(env, result) ==> forall a :: a in d.download ==>
              || (a.path in g.held && Get(base', a.path) == Get(base, a.path))
              || (IsApplied(d, prep, a) && (!Reachable(d.conflicts, a.path) ==>
                                            Get(disk, a.path) == Get(Last(prep).disk, a.path)))
  {
    var plan := PlanOf(d, prep);
    assert forall f :: f in plan.failures ==> f in result.failures;
    if Downloads.Skipped in Last(prep).fetches {
      SkippedIsFatal(d, prep);
    }
    if Checkpointed(env, result) {
      forall a | a in d.download
        ensures || (a.path in g.held && Get(base', a.path) == Get(base, a.path))
                || (IsApplied(d, prep, a) && (!Reachable(d.conflicts, a.path) ==>
                                              Get(disk, a.path) == Get(Last(prep).disk, a.path)))
      {
        AppliedOrRecorded(d, prep, a);
        NextBaseAt(base, env.refetched.value, g.held, a.path);
        if !Reachable(d.conflicts, a.path) {
          UnreachableStays(ResolutionMap(resolutions), env.fetch, d.conflicts, Last(prep).disk, a.path);
        }
      }
    }
  }

  // ---- A second round ---------------------------------------------------------------------

  /** `SyncPlan::from_late_conflicts`: the conflicts of a result, and nothing else of it. */
  function FromLateConflicts(result: SyncResult): Option<SyncPlan> {
    if result.conflicts == [] then None else Some(SyncPlan([], [], result.conflicts, []))
  }

  /** One completed round: what went in from the user and from outside, and what came out. */
  datatype Round =
    Round(resolutions: seq<Resolution>, env: Surroundings, result: SyncResult, base: Manifest, disk: Disk, g: Progress,
          batches: seq<Range>)

  ghost predicate Runs(plan: SyncPlan, base: Manifest, disk: Disk, rd: Round) {
    Completed(plan, rd.resolutions, rd.env, base, disk, rd.result, rd.base, rd.disk, rd.g, rd.batches)
  }

  /** A round that wrote its checkpoint over the given server manifest. */
  ghost predicate ChecksIn(plan: SyncPlan, base: Manifest, disk: Disk, server: Manifest, rd: Round) {
    Runs(plan, base, disk, rd) && Checkpointed(rd.env, rd.result) && rd.env.refetched == Some(server)
  }

  /** What the next cycle plans for `p`. */
  function NextPlan(base: Manifest, disk: Disk, server: Manifest, ignore: IgnoreRules, now: nat, p: Path): Decision {
    Plan(base, WorkingManifest(Scan(disk, ignore), base, now), server, ignore, p)
  }

  /** What a failed download leaves: the disk at its old base, the server ahead. */
  ghost predicate Awaits(base: Manifest, disk: Disk, server: Manifest, ignore: IgnoreRules, p: Path) {
    !ignore(p) && OnDisk(disk, p) == At(base, p) != At(server, p)
  }

  lemma AwaitsIsDownload(base: Manifest, disk: Disk, server: Manifest, ignore: IgnoreRules, now: nat, p: Path)
    requires Awaits(base, disk, server, ignore, p)
    ensures NextPlan(base, disk, server, ignore, now, p).Down?
  {
    WorkingShowsDisk(disk, base, ignore, now, p);
  }

  /** The round that was told of the failure keeps the download waiting, checkpoint or not. */
  lemma FailedDownloadWaits(plan: SyncPlan, base: Manifest, disk: Disk, server: Manifest, ignore: IgnoreRules,
                            rd: Round, p: Path)
    requires Runs(plan, base, disk, rd) && Awaits(base, disk, server, ignore, p)
    requires (exists f :: f in plan.failures && f.path == p) && !Reachable(plan.conflicts, p)
    ensures Awaits(rd.base, rd.disk, server, ignore, p)
  {
    UnreachableStays(ResolutionMap(rd.resolutions), rd.env.fetch, plan.conflicts, disk, p);
    var f :| f in plan.failures && f.path == p;
    assert f in rd.result.failures;
    HeldIsReported(plan, rd.resolutions, rd.env, disk, rd.result, rd.disk, rd.g, rd.batches, p);
    if Checkpointed(rd.env, rd.result) {
      NextBaseAt(base, rd.env.refetched.value, rd.g.held, p);
    }
  }

  /** Whatever a round queues for its conflicts goes to paths they reach. */
  lemma {:induction false} QueuedIsReachable(choices: map<Path, Choice>, fetch: Path -> Option<DiskFile>,
                                             cs: seq<Conflict>, a: SyncAction)
    requires a in Queued(choices, fetch, cs)
    ensures Reachable(cs, a.path)
  {
    var front, last := cs[..|cs| - 1], cs[|cs| - 1];
    assert last in cs && forall c :: c in front ==> c in cs;
    if a in Queued(choices, fetch, front) {
      QueuedIsReachable(choices, fetch, front, a);
    } else {
      OneConflictReaches(choices, fetch, last, map[], a.path);
    }
  }

  /** A second round holds back nothing but paths of its conflicts and their copies. */
  lemma SecondRoundHolds(result: SyncResult, base: Manifest, disk: Disk, rd: Round, p: Path)
    requires FromLateConflicts(result).Some? && Runs(FromLateConflicts(result).value, base, disk, rd) && p in rd.g.held
    ensures Reachable(result.conflicts, p)
  {
    var choices, conflicts := ResolutionMap(rd.resolutions), result.conflicts;
    assert FromLateConflicts(result).value == SyncPlan([], [], conflicts, []);
    assert [] + Queued(choices, rd.env.fetch, conflicts) == Queued(choices, rd.env.fetch, conflicts);
    HeldIsReachable(choices, rd.env.fetch, conflicts, rd.g, p);
  }

  lemma HeldIsReachable(choices: map<Path, Choice>, fetch: Path -> Option<DiskFile>, conflicts: seq<Conflict>,
                        g: Progress, p: Path)
    requires p in g.held
    requires Accounts(Queued(choices, fetch, conflicts), HeldAtFirst([], Deferred(choices, conflicts)), g)
    ensures Reachable(conflicts, p)
  {
    var uploads, deferred := Queued(choices, fetch, conflicts), Deferred(choices, conflicts);
    HeldIsQueuedOrDeferred(uploads, deferred, g, p);
    if c :| c in deferred && c.path == p {
      assert c in conflicts && Reaches(c, p);
    } else {
      var a :| a in uploads && a.path == p;
      QueuedIsReachable(choices, fetch, conflicts, a);
    }
  }

  lemma HeldIsQueuedOrDeferred(uploads: seq<SyncAction>, deferred: seq<Conflict>, g: Progress, p: Path)
    requires Accounts(uploads, HeldAtFirst([], deferred), g) && p in g.held
    ensures (exists c :: c in deferred && c.path == p) || (exists a :: a in uploads && a.path == p)
  {
    if p !in HeldAtFirst([], deferred) {
      var i :| 0 <= i < |uploads| && (g.fates[i].Failed? || g.fates[i].Late?) && uploads[i].path == p;
      assert uploads[i] in uploads;
    }
  }

  /**
   * The plan of a second round carries no failures. A download that failed in the first round, at
   * a path that is neither a reported conflict's nor the copy path of a live one, is turned around by
   * every second round that writes its checkpoint: the next cycle sends the stale file up.
   */
  lemma SecondRoundTurnsDownloadsAround(result: SyncResult, base: Manifest, disk: Disk, server: Manifest,
                                        ignore: IgnoreRules, now: nat, rd: Round, p: Path)
    requires FromLateConflicts(result).Some? && ChecksIn(FromLateConflicts(result).value, base, disk, server, rd)
    requires Awaits(base, disk, server, ignore, p) && !Reachable(result.conflicts, p)
    ensures NextPlan(rd.base, rd.disk, server, ignore, now, p).Up?
  {
    UnreachableStays(ResolutionMap(rd.resolutions), rd.env.fetch, result.conflicts, disk, p);
    if p in rd.g.held {
      SecondRoundHolds(result, base, disk, rd, p);
    }
    NextBaseAt(base, server, rd.g.held, p);
    WorkingShowsDisk(rd.disk, rd.base, ignore, now, p);
  }

  /**
   * Every second round that checks in turns the download around exactly when no answer to the reported
   * conflicts can reach its path.
   */
  lemma EverySecondRoundTurnsAroundIff(result: SyncResult, base: Manifest, disk: Disk, server: Manifest,
                                       ignore: IgnoreRules, now: nat, p: Path)
    requires FromLateConflicts(result).Some? && Awaits(base, disk, server, ignore, p)
    ensures (forall rd :: ChecksIn(FromLateConflicts(result).value, base, disk, server, rd) ==>
               NextPlan(rd.base, rd.disk, server, ignore, now, p).Up?) <==> !Reachable(result.conflicts, p)
  {
    var plan := FromLateConflicts(result).value;
    if Reachable(result.conflicts, p) {
      var rd := SomeRoundDoesNot(result.conflicts, base, disk, server, ignore, now, p);
      assert ChecksIn(plan, base, disk, server, rd);
    } else {
      forall rd | ChecksIn(plan, base, disk, server, rd)
        ensures NextPlan(rd.base, rd.disk, server, ignore, now, p).Up?
      {
        SecondRoundTurnsDownloadsAround(result, base, disk, server, ignore, now, rd, p);
      }
    }
  }

  lemma SomeRoundDoesNot(conflicts: seq<Conflict>, base: Manifest, disk: Disk, server: Manifest, ignore: IgnoreRules,
                         now: nat, p: Path)
    returns (rd: Round)
    requires Awaits(base, disk, server, ignore, p) && Reachable(conflicts, p)
    ensures ChecksIn(SyncPlan([], [], conflicts, []), base, disk, server, rd)
    ensures !NextPlan(rd.base, rd.disk, server, ignore, now, p).Up?
  {
    var c :| c in conflicts && Reaches(c, p);
    if c' :| c' in conflicts && c'.path == p {
      rd := DeferAll(SyncPlan([], [], conflicts, []), base, disk, server);
      NextBaseAt(base, server, rd.g.held, p);
      AwaitsIsDownload(rd.base, rd.disk, server, ignore, now, p);
    } else {
      assert ConflictCopyPath(c.path) == p;
      rd := KeepBothFails(conflicts, c, base, disk, server, Substitute(disk, p));
      NextBaseAt(base, server, rd.g.held, p);
      HeldIsNotSent(base, disk, rd.base, rd.disk, server, ignore, now, p);
    }
  }

  function Substitute(disk: Disk, p: Path): DiskFile {
    if p in disk then disk[p] else DiskFile("0", 0, 0)
  }

  /** A held-back path whose file is the old one, or new on this side too, is not sent up. */
  lemma HeldIsNotSent(base: Manifest, disk: Disk, base': Manifest, disk': Disk, server: Manifest, ignore: IgnoreRules,
                      now: nat, p: Path)
    requires Awaits(base, disk, server, ignore, p) && Get(base', p) == Get(base, p) &&
             Get(disk', p) == Some(Substitute(disk, p))
    ensures !NextPlan(base', disk', server, ignore, now, p).Up?
  {
    WorkingShowsDisk(disk', base', ignore, now, p);
    assert p in disk' && disk'[p] == Substitute(disk, p);
  }

  // ---- The round that defers everything ---------------------------------------------------

  function Postponed(conflicts: seq<Conflict>): (r: seq<Resolution>)
    ensures |r| == |conflicts| && forall k :: 0 <= k < |r| ==> r[k] == Resolution(conflicts[k].path, Defer)
  {
    seq(|conflicts|, k requires 0 <= k < |conflicts| => Resolution(conflicts[k].path, Defer))
  }

  lemma {:induction false} PostponedDefers(rs: seq<Resolution>)
    requires forall k :: 0 <= k < |rs| ==> rs[k].choice == Defer
    ensures forall p :: p in ResolutionMap(rs) ==> ResolutionMap(rs)[p] == Defer
    ensures forall k :: 0 <= k < |rs| ==> rs[k].path in ResolutionMap(rs)
  {
    if rs != [] {
      PostponedDefers(rs[..|rs| - 1]);
    }
  }

  lemma DeferringOne(choices: map<Path, Choice>, fetch: Path -> Option<DiskFile>, c: Conflict, disk: Disk)
    requires forall p :: p in choices ==> choices[p] == Defer
    ensures ChoiceFor(choices, c) == Defer && QueuedFor(choices, fetch, c) == [] &&
            DiskFor(choices, fetch, c, disk) == disk
  {
  }

  lemma {:induction false} DeferringQueuesNothing(choices: map<Path, Choice>, fetch: Path -> Option<DiskFile>,
                                                  cs: seq<Conflict>)
    requires forall p :: p in choices ==> choices[p] == Defer
    ensures Queued(choices, fetch, cs) == []
  {
    if cs != [] {
      DeferringQueuesNothing(choices, fetch, cs[..|cs| - 1]);
      DeferringOne(choices, fetch, cs[|cs| - 1], map[]);
    }
  }

  lemma {:induction false} DeferringWritesNothing(choices: map<Path, Choice>, fetch: Path -> Option<DiskFile>,
                                                  cs: seq<Conflict>, disk: Disk)
    requires forall p :: p in choices ==> choices[p] == Defer
    ensures DiskAfter(choices, fetch, cs, disk) == disk
  {
    if cs != [] {
      DeferringWritesNothing(choices, fetch, cs[..|cs| - 1], disk);
      DeferringOne(choices, fetch, cs[|cs| - 1], disk);
    }
  }

  function Nowhere(p: Path): Option<DiskFile> { None }
  function Unread(i: nat): bool { false }
  function Silent(i: nat): BatchReply { RequestFailed(true) }

  /**
   * Deferring every conflict, with nothing to upload: the round checks in and holds back the conflicts and the
   * plan's failures.
   */
  lemma DeferAll(plan: SyncPlan, base: Manifest, disk: Disk, server: Manifest) returns (rd: Round)
    requires plan.upload == [] && !AnyFatal(plan.failures)
    ensures ChecksIn(plan, base, disk, server, rd)
    ensures rd.disk == disk && rd.base == NextBase(base, server, rd.g.held)
    ensures rd.result.failures == plan.failures && forall c :: c in rd.result.conflicts <==> c in plan.conflicts
    ensures forall p :: p in rd.g.held <==>
              (exists f :: f in plan.failures && f.path == p) || (exists c :: c in plan.conflicts && c.path == p)
  {
    var rs := Postponed(plan.conflicts);
    var deferred := Deferred(ResolutionMap(rs), plan.conflicts);
    var g := Progress(0, [], [], HeldAtFirst(plan.failures, deferred), []);
    var env := Surroundings(Nowhere, Unread, Silent, Some(server));
    rd := Round(rs, env, SyncResult([], deferred, plan.failures, false), NextBase(base, server, g.held), disk, g, []);
    DeferredReports(plan, env, disk);
    ReportChecksIn(plan, base, disk, server, rd);
    AllDeferred(plan.conflicts, disk);
  }

  lemma AllDeferred(conflicts: seq<Conflict>, disk: Disk)
    ensures forall c :: c in Deferred(ResolutionMap(Postponed(conflicts)), conflicts) <==> c in conflicts
  {
    PostponedApplies(conflicts, disk);
  }

  lemma DeferredReports(plan: SyncPlan, env: Surroundings, disk: Disk)
    requires plan.upload == [] && env.fetch == Nowhere
    ensures var rs := Postponed(plan.conflicts);
            var deferred := Deferred(ResolutionMap(rs), plan.conflicts);
            Reports(plan, rs, env, disk, SyncResult([], deferred, plan.failures, false), disk,
                    Progress(0, [], [], HeldAtFirst(plan.failures, deferred), []), [])
  {
    var deferred := Deferred(ResolutionMap(Postponed(plan.conflicts)), plan.conflicts);
    PostponedApplies(plan.conflicts, disk);
    NothingSent(HeldAtFirst(plan.failures, deferred));
    assert deferred + [] == deferred && plan.failures + [] == plan.failures;
  }

  lemma NothingSent(held: set<Path>)
    ensures Accounts([], held, Progress(0, [], [], held, [])) && Splits(Sizes([]), [], 0)
  {
  }

  lemma PostponedApplies(conflicts: seq<Conflict>, disk: Disk)
    ensures var choices := ResolutionMap(Postponed(conflicts));
            && AppliedTo(choices, Nowhere, conflicts, [], disk, Resolved([], Deferred(choices, conflicts)), disk)
            && forall c :: c in conflicts ==> ChoiceFor(choices, c) == Defer
  {
    var rs := Postponed(conflicts);
    var choices := ResolutionMap(rs);
    PostponedDefers(rs);
    DeferringQueuesNothing(choices, Nowhere, conflicts);
    DeferringWritesNothing(choices, Nowhere, conflicts, disk);
    forall c | c in conflicts ensures CanApply(choices, Nowhere, c) && ChoiceFor(choices, c) == Defer {
      var k :| 0 <= k < |conflicts| && conflicts[k] == c;
      assert rs[k].path in choices;
      DeferringOne(choices, Nowhere, c, disk);
    }
  }

  // ---- The round whose uploads all fail -----------------------------------------------------

  function Refused(i: nat): BatchReply { RequestFailed(false) }

  function EachAlone(n: nat): (r: seq<Range>)
    ensures |r| == n && forall k :: 0 <= k < n ==> r[k] == Range(k, k + 1)
  {
    seq(n, k requires 0 <= k < n => Range(k, k + 1))
  }

  function AllFailed(uploads: seq<SyncAction>, held0: set<Path>): Progress {
    Progress(0, seq(|uploads|, k requires 0 <= k < |uploads| => FailureOf(uploads[k], false)), [],
             held0 + (set a | a in uploads :: a.path), seq(|uploads|, _ => Failed(false)))
  }

  lemma {:induction false} CountFailed(fates: seq<Fate>, n: nat)
    requires n <= |fates| && forall k :: 0 <= k < |fates| ==> fates[k] == Failed(false)
    ensures CountFates(fates, n) == Counts(0, n, 0)
  {
    if n > 0 {
      CountFailed(fates, n - 1);
    }
  }

  lemma AllFailedAccounts(uploads: seq<SyncAction>, held0: set<Path>)
    ensures Accounts(uploads, held0, AllFailed(uploads, held0))
  {
    var g := AllFailed(uploads, held0);
    CountFailed(g.fates, |uploads|);
    forall i | 0 <= i < |uploads| ensures FailureOf(uploads[i], false) in g.failures && uploads[i].path in g.held {
      assert g.failures[i] == FailureOf(uploads[i], false);
      assert uploads[i] in uploads;
    }
    forall f | f in g.failures ensures IsFailureOfSome(uploads, g.fates, f) && f.path in g.held {
      var i :| 0 <= i < |uploads| && g.failures[i] == f;
      assert uploads[i] in uploads && g.fates[i] == Failed(false);
    }
    forall p | p in g.held && p !in held0
      ensures exists i :: 0 <= i < |uploads| && (g.fates[i].Failed? || g.fates[i].Late?) && uploads[i].path == p
    {
      var a :| a in uploads && a.path == p;
      var i :| 0 <= i < |uploads| && uploads[i] == a;
      assert g.fates[i].Failed?;
    }
  }

  /** Nothing can be read and every request fails without being systemic: exactly these fates are dictated. */
  lemma AllFailedIsDictated(uploads: seq<SyncAction>, held0: set<Path>)
    requires forall a :: a in uploads ==> a.kind == Upload || a.kind == DeleteRemote
    ensures Splits(Sizes(uploads), EachAlone(|uploads|), |uploads|)
    ensures AsDictated(uploads, Unread, Refused, EachAlone(|uploads|), |uploads|, AllFailed(uploads, held0).fates)
  {
    var batches := EachAlone(|uploads|);
    forall k, i | 0 <= k < |uploads| && batches[k].start <= i < batches[k].end
      ensures !Stops(uploads, Unread, Refused, batches[k]) &&
              FateIn(uploads, Unread, Refused, batches[k], i) == Failed(false)
    {
      assert uploads[i] in uploads;
    }
  }

  lemma {:induction false} QueuedKinds(choices: map<Path, Choice>, fetch: Path -> Option<DiskFile>, cs: seq<Conflict>,
                                       a: SyncAction)
    requires a in Queued(choices, fetch, cs)
    ensures a.kind == Upload || a.kind == DeleteRemote
  {
    if a in Queued(choices, fetch, cs[..|cs| - 1]) {
      QueuedKinds(choices, fetch, cs[..|cs| - 1], a);
    }
  }

  function BothFor(conflicts: seq<Conflict>, c: Conflict): seq<Resolution> {
    Postponed(conflicts) + [Resolution(c.path, KeepBoth)]
  }

  lemma BothChoices(conflicts: seq<Conflict>, c: Conflict)
    ensures var choices := ResolutionMap(BothFor(conflicts, c));
            && (forall k :: 0 <= k < |conflicts| ==> conflicts[k].path in choices)
            && (forall p :: p in choices && p != c.path ==> choices[p] == Defer)
            && c.path in choices && choices[c.path] == KeepBoth
  {
    var rs, all := Postponed(conflicts), BothFor(conflicts, c);
    assert all[..|rs|] == rs && all[|all| - 1] == Resolution(c.path, KeepBoth);
    PostponedDefers(rs);
    forall k | 0 <= k < |conflicts| ensures conflicts[k].path in ResolutionMap(all) {
      assert rs[k].path in ResolutionMap(rs);
    }
  }

  /** Of the conflicts answered with `KeepBoth` at one path only copies go elsewhere. */
  lemma BothDiskFor(choices: map<Path, Choice>, fetch: Path -> Option<DiskFile>, c: Conflict, c': Conflict,
                    f: DiskFile, disk: Disk, p: Path)
    requires forall q :: q in choices && q != c.path ==> choices[q] == Defer
    requires fetch(c.path) == Some(f) && c'.path != p && ConflictCopyPath(c.path) == p
    ensures var disk' := DiskFor(choices, fetch, c', disk);
            Get(disk', p) == Get(disk, p) || Get(disk', p) == Some(f)
    ensures c' == c && c.path in choices && choices[c.path] == KeepBoth && !c.local.deleted && !c.remote.deleted ==>
              Get(DiskFor(choices, fetch, c', disk), p) == Some(f) && CopyUpload(c, f) in QueuedFor(choices, fetch, c')
  {
  }

  lemma {:induction false} BothDiskAfter(choices: map<Path, Choice>, fetch: Path -> Option<DiskFile>, c: Conflict,
                                         f: DiskFile, cs: seq<Conflict>, disk: Disk, p: Path)
    requires c.path in choices && choices[c.path] == KeepBoth &&
             forall q :: q in choices && q != c.path ==> choices[q] == Defer
    requires fetch(c.path) == Some(f) && ConflictCopyPath(c.path) == p && !c.local.deleted && !c.remote.deleted
    requires forall c' :: c' in cs ==> c'.path != p
    ensures Get(DiskAfter(choices, fetch, cs, disk), p) == Some(f) || c !in cs
    ensures c in cs ==> CopyUpload(c, f) in Queued(choices, fetch, cs)
    ensures Get(DiskAfter(choices, fetch, cs, disk), p) in {Some(f), Get(disk, p)}
  {
    if cs != [] {
      var front, last := cs[..|cs| - 1], cs[|cs| - 1];
      assert last in cs && forall c' :: c' in front ==> c' in cs;
      assert cs == front + [last];
      BothDiskAfter(choices, fetch, c, f, front, disk, p);
      BothDiskFor(choices, fetch, c, last, f, DiskAfter(choices, fetch, front, disk), p);
    }
  }

  /**
   * Any answers, every fetch served and no upload getting through: the round checks in and holds back all it
   * queued.
   */
  lemma AllUploadsFail(conflicts: seq<Conflict>, rs: seq<Resolution>, fetch: Path -> Option<DiskFile>, base: Manifest,
                       disk: Disk, server: Manifest)
    returns (rd: Round)
    requires (forall k :: 0 <= k < |conflicts| ==> conflicts[k].path in ResolutionMap(rs)) &&
             (forall p :: fetch(p).Some?)
    ensures ChecksIn(SyncPlan([], [], conflicts, []), base, disk, server, rd)
    ensures rd.base == NextBase(base, server, rd.g.held) &&
            rd.disk == DiskAfter(ResolutionMap(rs), fetch, conflicts, disk)
    ensures forall a :: a in Queued(ResolutionMap(rs), fetch, conflicts) ==> a.path in rd.g.held
  {
    var choices := ResolutionMap(rs);
    var uploads, deferred := Queued(choices, fetch, conflicts), Deferred(choices, conflicts);
    var held0 := HeldAtFirst([], deferred);
    var g, batches := AllFailed(uploads, held0), EachAlone(|uploads|);
    AllQueuedFail(choices, fetch, conflicts, held0);
    AnsweredApplies(choices, fetch, conflicts, disk);
    var env := Surroundings(fetch, Unread, Refused, Some(server));
    rd := Round(rs, env, SyncResult(uploads, deferred + g.late, g.failures, false), NextBase(base, server, g.held),
                DiskAfter(choices, fetch, conflicts, disk), g, batches);
    ReportOf(conflicts, rs, env, disk, rd.disk, uploads, g, batches);
    ReportChecksIn(SyncPlan([], [], conflicts, []), base, disk, server, rd);
  }

  lemma ReportChecksIn(plan: SyncPlan, base: Manifest, disk: Disk, server: Manifest, rd: Round)
    requires Reports(plan, rd.resolutions, rd.env, disk, rd.result, rd.disk, rd.g, rd.batches) &&
             !AnyFatal(rd.result.failures)
    requires rd.env.refetched == Some(server) && rd.base == NextBase(base, server, rd.g.held) &&
             !rd.result.checkpointFailed
    ensures ChecksIn(plan, base, disk, server, rd)
  {
  }

  lemma AllQueuedFail(choices: map<Path, Choice>, fetch: Path -> Option<DiskFile>, conflicts: seq<Conflict>,
                      held0: set<Path>)
    ensures var uploads := Queued(choices, fetch, conflicts);
            var g, batches := AllFailed(uploads, held0), EachAlone(|uploads|);
            && Accounts(uploads, held0, g) && Splits(Sizes(uploads), batches, |uploads|)
            && AsDictated(uploads, Unread, Refused, batches, |batches|, g.fates)
            && !AnyFatal(g.failures) && Untouched !in g.fates
            && forall a :: a in uploads ==> a.path in g.held
  {
    var uploads := Queued(choices, fetch, conflicts);
    forall a | a in uploads ensures a.kind == Upload || a.kind == DeleteRemote {
      QueuedKinds(choices, fetch, conflicts, a);
    }
    AllFailedAccounts(uploads, held0);
    AllFailedIsDictated(uploads, held0);
    AllFailedMildly(uploads, held0);
  }

  lemma AllFailedMildly(uploads: seq<SyncAction>, held0: set<Path>)
    ensures var g := AllFailed(uploads, held0); !AnyFatal(g.failures) && Untouched !in g.fates
  {
  }

  lemma ReportOf(conflicts: seq<Conflict>, rs: seq<Resolution>, env: Surroundings, disk0: Disk, disk: Disk,
                 uploads: seq<SyncAction>, g: Progress, batches: seq<Range>)
    requires var choices := ResolutionMap(rs);
             var deferred := Deferred(choices, conflicts);
             && AppliedTo(choices, env.fetch, conflicts, [], disk0, Resolved(uploads, deferred), disk)
             && Splits(Sizes(uploads), batches, |uploads|) && Accounts(uploads, HeldAtFirst([], deferred), g)
             && AsDictated(uploads, env.readable, env.answer, batches, |batches|, g.fates) && Untouched !in g.fates
    ensures Reports(SyncPlan([], [], conflicts, []), rs, env, disk0,
                    SyncResult(uploads, Deferred(ResolutionMap(rs), conflicts) + g.late, g.failures, false), disk, g,
                    batches)
  {
    assert [] + g.failures == g.failures;
  }

  /**
   * `c` answered with `KeepBoth` and everything else deferred: the copy is written, its upload fails, and the
   * round checks in.
   */
  lemma KeepBothFails(conflicts: seq<Conflict>, c: Conflict, base: Manifest, disk: Disk, server: Manifest, f: DiskFile)
    returns (rd: Round)
    requires c in conflicts && !c.local.deleted && !c.remote.deleted
    requires forall c' :: c' in conflicts ==> c'.path != ConflictCopyPath(c.path)
    ensures ChecksIn(SyncPlan([], [], conflicts, []), base, disk, server, rd)
    ensures rd.base == NextBase(base, server, rd.g.held) && ConflictCopyPath(c.path) in rd.g.held
    ensures Get(rd.disk, ConflictCopyPath(c.path)) == Some(f)
  {
    var rs, fetch := BothFor(conflicts, c), (_: Path) => Some(f);
    BothChoices(conflicts, c);
    rd := AllUploadsFail(conflicts, rs, fetch, base, disk, server);
    BothDiskAfter(ResolutionMap(rs), fetch, c, f, conflicts, disk, ConflictCopyPath(c.path));
    assert CopyUpload(c, f).path == ConflictCopyPath(c.path);
  }

  /** With every conflict answered and every fetch served, the choices are carried out. */
  lemma AnsweredApplies(choices: map<Path, Choice>, fetch: Path -> Option<DiskFile>, conflicts: seq<Conflict>,
                        disk: Disk)
    requires (forall k :: 0 <= k < |conflicts| ==> conflicts[k].path in choices) && (forall p :: fetch(p).Some?)
    ensures AppliedTo(choices, fetch, conflicts, [], disk,
                      Resolved(Queued(choices, fetch, conflicts), Deferred(choices, conflicts)),
                      DiskAfter(choices, fetch, conflicts, disk))
  {
    forall c | c in conflicts ensures CanApply(choices, fetch, c) {
      var k :| 0 <= k < |conflicts| && conflicts[k] == c;
    }
    assert [] + Queued(choices, fetch, conflicts) == Queued(choices, fetch, conflicts);
  }

  // ---- A concrete second round ------------------------------------------------------------

  const OLD_A := FileEntry("h", 0, 0, false, "")
  const NEW_A := FileEntry("k", 0, 0, false, "")
  const OUR_X := FileEntry("l", 0, 0, false, "")
  const THEIR_X := FileEntry("r", 0, 0, false, "")

  /** `a` was in step and is newer on the server; `x` was made on both sides. */
  ghost const STALE_BASE: Manifest := map["a" := OLD_A]
  ghost const STALE_SERVER: Manifest := map["a" := NEW_A, "x" := THEIR_X]
  ghost const STALE_DISK: Disk := map["a" := DiskFile("h", 0, 0), "x" := DiskFile("l", 0, 0)]

  ghost function Nobody(p: Path): bool { false }

  ghost function Walked(): Manifest {
    WorkingManifest(Scan(STALE_DISK, Nobody), STALE_BASE, 0)
  }

  /** The plan after the download of `a` failed. */
  ghost const STALE_PLAN: SyncPlan :=
    SyncPlan([], [SyncAction("a", Download, Some(OLD_A), Some(NEW_A))], [Conflict("x", OUR_X, THEIR_X)],
             [SyncFailure("a", Download, false)])

  /** It is the plan the diff gives. */
  lemma StalePlanIsPlanned()
    ensures PlannedDownload(STALE_BASE, Walked(), STALE_SERVER, "a") == Some(STALE_PLAN.download[0])
    ensures PlannedConflict(STALE_BASE, Walked(), STALE_SERVER, "x") == Some(STALE_PLAN.conflicts[0])
    ensures forall p :: NextPlan(STALE_BASE, STALE_DISK, STALE_SERVER, Nobody, 0, p) ==
              if p == "a" then Down(Download) else if p == "x" then Clash else Nothing
  {
    StaleWalk();
    forall p
      ensures NextPlan(STALE_BASE, STALE_DISK, STALE_SERVER, Nobody, 0, p) ==
                if p == "a" then Down(Download) else if p == "x" then Clash else Nothing
    {
      StalePlanAt(p);
    }
  }

  lemma StaleWalk()
    ensures Walked() == map["a" := OLD_A, "x" := OUR_X]
  {
    var scanned := Scan(STALE_DISK, Nobody);
    assert scanned == map["a" := OLD_A, "x" := OUR_X];
    assert Walked() == scanned;
  }

  lemma StalePlanAt(p: Path)
    ensures NextPlan(STALE_BASE, STALE_DISK, STALE_SERVER, Nobody, 0, p) ==
              if p == "a" then Down(Download) else if p == "x" then Clash else Nothing
  {
    StaleWalk();
  }

  /**
   * The user defers `x`, is shown it again and defers it again: after the first round the next cycle
   * would still download `a`, after the second it uploads the old file over the new one.
   */
  lemma AStaleFileGoesUp() returns (first: Round, second: Round)
    ensures ChecksIn(STALE_PLAN, STALE_BASE, STALE_DISK, STALE_SERVER, first)
    ensures FromLateConflicts(first.result).Some?
    ensures ChecksIn(FromLateConflicts(first.result).value, first.base, first.disk, STALE_SERVER, second)
    ensures NextPlan(first.base, first.disk, STALE_SERVER, Nobody, 0, "a").Down?
    ensures NextPlan(second.base, second.disk, STALE_SERVER, Nobody, 0, "a").Up?
  {
    first := StaleFirst();
    AwaitsIsDownload(first.base, first.disk, STALE_SERVER, Nobody, 0, "a");
    second := DeferAll(FromLateConflicts(first.result).value, first.base, first.disk, STALE_SERVER);
    SecondRoundTurnsDownloadsAround(first.result, first.base, first.disk, STALE_SERVER, Nobody, 0, second, "a");
  }

  lemma StaleFirst() returns (first: Round)
    ensures ChecksIn(STALE_PLAN, STALE_BASE, STALE_DISK, STALE_SERVER, first)
    ensures FromLateConflicts(first.result).Some? && !Reachable(first.result.conflicts, "a")
    ensures Awaits(first.base, first.disk, STALE_SERVER, Nobody, "a")
  {
    first := DeferAll(STALE_PLAN, STALE_BASE, STALE_DISK, STALE_SERVER);
    assert STALE_PLAN.conflicts[0] in first.result.conflicts && STALE_PLAN.failures[0] in STALE_PLAN.failures;
    NextBaseAt(STALE_BASE, STALE_SERVER, first.g.held, "a");
    XDoesNotReach();
  }

  lemma XDoesNotReach()
    ensures !Reaches(STALE_PLAN.conflicts[0], "a")
  {
    CopySlash("x");
    assert |ConflictCopyPath("x")| == 10;
  }
}
