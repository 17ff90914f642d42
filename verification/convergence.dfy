/** Any number of devices taking turns end up with the server's files. */
module Convergence {
  import opened Types
  import opened Manifests
  import opened LocalState
  import opened ServerGate
  import opened Protocol
  import opened SoloCycle
  import opened Resume
  import opened Resolution
  import opened CarryingOut
  import opened SyncRules

  /** A cycle on its own that reported no conflict and no failure: nothing was held back. */
  ghost predicate CleanRun(w0: World, now: nat, ws: seq<World>, steps: seq<Step>, d: DeviceId) {
    && SoloRun(w0, now, ws, steps, Checkpoint(d), d, map[])
    && ws[|steps|].devices[d].cycle.value.held == {}
  }

  ghost predicate CleanCycle(w: World, w': World, d: DeviceId) {
    exists now, ws, steps :: CleanRun(w, now, ws, steps, d) && w' == Do(ws[|steps|], Checkpoint(d))
  }

  ghost predicate AllIdle(w: World) {
    forall e :: e in w.devices ==> w.devices[e].cycle.None?
  }

  /** Every device ignores the same paths. */
  ghost predicate Shared(w: World, ignore: IgnoreRules) {
    forall e :: e in w.devices ==> w.devices[e].ignore == ignore
  }

  /** The device's disk is exactly what its last checkpoint says. */
  ghost predicate Quiet(dev: Device, ignore: IgnoreRules) {
    forall p :: !ignore(p) ==> OnDisk(dev.disk, p) == At(dev.base, p)
  }

  ghost predicate Mirrors(w: World, dev: Device, ignore: IgnoreRules) {
    forall p :: !ignore(p) ==> OnDisk(dev.disk, p) == At(w.files, p)
  }

  ghost predicate SameVersions(w: World, w': World, ignore: IgnoreRules) {
    forall p :: !ignore(p) ==> At(w'.files, p) == At(w.files, p)
  }

  /** `p` after a clean cycle of `d`: the three-way merge, on disk, on the server and in the base. */
  ghost predicate MergedAt(w: World, w': World, d: DeviceId, p: Path) {
    && d in w.devices && d in w'.devices
    && var dev, dev' := w.devices[d], w'.devices[d];
       Some(At(w'.files, p)) == Merge3(At(dev.base, p), OnDisk(dev.disk, p), At(w.files, p)) &&
       OnDisk(dev'.disk, p) == At(w'.files, p) == At(dev'.base, p)
  }

  /** What one turn of `d` does: it ends merged everywhere, and no other device notices. */
  ghost predicate Synced(w: World, w': World, d: DeviceId, ignore: IgnoreRules) {
    && AllIdle(w') && Shared(w', ignore) && w'.devices.Keys == w.devices.Keys
    && (forall e :: e in w.devices && e != d ==> w'.devices[e] == w.devices[e])
    && forall p :: !ignore(p) ==> MergedAt(w, w', d, p)
  }

  /** A device that has had its turn mirrors the server; one without edits of its own changed nothing there. */
  lemma SyncedMeans(w: World, w': World, d: DeviceId, ignore: IgnoreRules)
    requires d in w.devices && Synced(w, w', d, ignore)
    ensures Mirrors(w', w'.devices[d], ignore) && Quiet(w'.devices[d], ignore)
    ensures Quiet(w.devices[d], ignore) ==> SameVersions(w, w', ignore)
  {
    forall p | !ignore(p)
      ensures OnDisk(w'.devices[d].disk, p) == At(w'.files, p) == At(w'.devices[d].base, p)
      ensures OnDisk(w.devices[d].disk, p) == At(w.devices[d].base, p) ==> At(w'.files, p) == At(w.files, p)
    {
      assert MergedAt(w, w', d, p);
    }
  }

  /** One clean cycle: every path ends as the three-way merge, on disk, on the server and in the base. */
  lemma CleanCycleSyncs(w: World, w': World, d: DeviceId, ignore: IgnoreRules)
    requires AllIdle(w) && Shared(w, ignore) && d in w.devices && CleanCycle(w, w', d)
    ensures Synced(w, w', d, ignore)
  {
    var now, ws, steps :| CleanRun(w, now, ws, steps, d) && w' == Do(ws[|steps|], Checkpoint(d));
    CleanFrame(w, now, ws, steps, d);
    FrameSyncs(w, ws[|steps|], d, now, ignore);
  }

  lemma FrameSyncs(w: World, last: World, d: DeviceId, now: nat, ignore: IgnoreRules)
    requires AllIdle(w) && Shared(w, ignore) && Enabled(w, Begin(d, now)) && SoloInv(last, d, map[], w.devices[d].disk)
    requires SamePlan(Do(w, Begin(d, now)).devices[d], last.devices[d]) && last.devices.Keys == w.devices.Keys
    requires forall e :: e in w.devices && e != d && w.devices[e].cycle.None? ==> last.devices[e] == w.devices[e]
    requires Enabled(last, Checkpoint(d)) && last.devices[d].cycle.value.held == {}
    ensures Synced(w, Do(last, Checkpoint(d)), d, ignore)
  {
    forall p | !ignore(p) ensures MergedAt(w, Do(last, Checkpoint(d)), d, p) {
      CleanAtPath(w, last, d, now, p);
    }
  }

  lemma CleanFrame(w: World, now: nat, ws: seq<World>, steps: seq<Step>, d: DeviceId)
    requires CleanRun(w, now, ws, steps, d)
    ensures var last, first := ws[|steps|], Do(w, Begin(d, now));
            && SoloInv(last, d, map[], w.devices[d].disk) && SamePlan(first.devices[d], last.devices[d])
            && last.devices.Keys == w.devices.Keys
            && forall e :: e in w.devices && e != d && w.devices[e].cycle.None? ==> last.devices[e] == w.devices[e]
  {
    BeginStartsSolo(w, d, now, map[]);
    SoloStepsKeep(ws, steps, d, map[], w.devices[d].disk, |steps|);
  }

  lemma CleanAtPath(w: World, last: World, d: DeviceId, now: nat, p: Path)
    requires Enabled(w, Begin(d, now)) && SoloInv(last, d, map[], w.devices[d].disk)
    requires SamePlan(Do(w, Begin(d, now)).devices[d], last.devices[d])
    requires Enabled(last, Checkpoint(d)) && last.devices[d].cycle.value.held == {} && !w.devices[d].ignore(p)
    ensures MergedAt(w, Do(last, Checkpoint(d)), d, p)
  {
    NextBaseAt(last.devices[d].base, last.files, {}, p);
    CleanReached(w, last, d, now, p);
  }

  /** Both sides hold the merge when nothing is left open or held back. */
  lemma CleanReached(w: World, last: World, d: DeviceId, now: nat, p: Path)
    requires Enabled(w, Begin(d, now)) && SoloInv(last, d, map[], w.devices[d].disk)
    requires SamePlan(Do(w, Begin(d, now)).devices[d], last.devices[d])
    requires Enabled(last, Checkpoint(d)) && last.devices[d].cycle.value.held == {} && !w.devices[d].ignore(p)
    ensures Some(At(last.files, p)) == Merge3(At(w.devices[d].base, p), OnDisk(w.devices[d].disk, p), At(w.files, p))
    ensures OnDisk(last.devices[d].disk, p) == At(last.files, p)
  {
    var dev := last.devices[d];
    WorkingShowsDisk(w.devices[d].disk, w.devices[d].base, dev.ignore, now, p);
    assert PathInv(last, dev, map[], w.devices[d].disk, p) && SourceInv(dev, map[], p);
    NoCopies(dev);
    assert !Open(dev, p);
  }

  /** Without an answer nothing is copied. */
  lemma NoCopies(dev: Device)
    requires dev.cycle.Some? && CopiesInv(dev, map[])
    ensures dev.cycle.value.copies == map[]
  {
    forall q ensures !HasSource(dev, map[], q) {
    }
  }

  ghost predicate TakeTurns(order: seq<DeviceId>, ws: seq<World>) {
    && |ws| == |order| + 1
    && forall k {:trigger order[k]} :: 0 <= k < |order| ==>
         order[k] in ws[k].devices && CleanCycle(ws[k], ws[k + 1], order[k])
  }

  ghost predicate Turns(order: seq<DeviceId>, ws: seq<World>, ignore: IgnoreRules) {
    && |ws| == |order| + 1 && AllIdle(ws[0]) && Shared(ws[0], ignore)
    && forall k {:trigger order[k]} :: 0 <= k < |order| ==>
         order[k] in ws[k].devices && Synced(ws[k], ws[k + 1], order[k], ignore)
  }

  lemma {:induction false} TakenTurns(order: seq<DeviceId>, ws: seq<World>, ignore: IgnoreRules, k: nat)
    requires TakeTurns(order, ws) && k <= |order| && AllIdle(ws[0]) && Shared(ws[0], ignore)
    ensures AllIdle(ws[k]) && Shared(ws[k], ignore) && ws[k].devices.Keys == ws[0].devices.Keys
    ensures forall j :: 0 <= j < k ==> Synced(ws[j], ws[j + 1], order[j], ignore)
  {
    if k > 0 {
      TakenTurns(order, ws, ignore, k - 1);
      CleanCycleSyncs(ws[k - 1], ws[k], order[k - 1], ignore);
    }
  }

  /** Whoever has had a turn is without edits of its own. */
  lemma {:induction false} TurnsKeep(order: seq<DeviceId>, ws: seq<World>, ignore: IgnoreRules, k: nat)
    requires Turns(order, ws, ignore) && k <= |order|
    ensures forall j :: 0 <= j < k ==> order[j] in ws[k].devices && Quiet(ws[k].devices[order[j]], ignore)
  {
    if k > 0 {
      TurnsKeep(order, ws, ignore, k - 1);
      assert Synced(ws[k - 1], ws[k], order[k - 1], ignore);
      SyncedMeans(ws[k - 1], ws[k], order[k - 1], ignore);
    }
  }

  /** What the turns from world `n` on have achieved by world `k`. */
  ghost predicate Settling(order: seq<DeviceId>, ws: seq<World>, ignore: IgnoreRules, n: nat, k: nat)
    requires |ws| == |order| + 1 && n <= k <= |order|
  {
    && SameVersions(ws[n], ws[k], ignore)
    && (forall e :: e in ws[k].devices ==> Quiet(ws[k].devices[e], ignore))
    && forall j :: n <= j < k ==> order[j] in ws[k].devices && Mirrors(ws[k], ws[k].devices[order[j]], ignore)
  }

  /** Once every device is without edits of its own, turns only make more devices mirror the server. */
  lemma {:induction false} QuietTurnsMirror(order: seq<DeviceId>, ws: seq<World>, ignore: IgnoreRules, n: nat, k: nat)
    requires Turns(order, ws, ignore) && n <= k <= |order|
    requires forall e :: e in ws[n].devices ==> Quiet(ws[n].devices[e], ignore)
    ensures Settling(order, ws, ignore, n, k)
  {
    if k > n {
      QuietTurnsMirror(order, ws, ignore, n, k - 1);
      assert Synced(ws[k - 1], ws[k], order[k - 1], ignore);
      SyncedMeans(ws[k - 1], ws[k], order[k - 1], ignore);
      forall j | n <= j < k ensures order[j] in ws[k].devices && Mirrors(ws[k], ws[k].devices[order[j]], ignore) {
        assert j < k - 1 ==> Mirrors(ws[k - 1], ws[k - 1].devices[order[j]], ignore);
      }
    }
  }

  /** A cycle begun now would plan nothing. */
  ghost predicate NothingToDo(w: World, e: DeviceId) {
    && e in w.devices && w.devices[e].cycle.None?
    && forall now: nat, p: Path :: PlanAt(Do(w, Begin(e, now)).devices[e], p) == Nothing
  }

  lemma MirrorHasNothingToDo(w: World, e: DeviceId, ignore: IgnoreRules)
    requires e in w.devices && w.devices[e].cycle.None? && w.devices[e].ignore == ignore
    requires Mirrors(w, w.devices[e], ignore)
    ensures NothingToDo(w, e)
  {
    var dev := w.devices[e];
    forall now: nat, p: Path ensures PlanAt(Do(w, Begin(e, now)).devices[e], p) == Nothing {
      if !ignore(p) {
        WorkingShowsDisk(dev.disk, dev.base, ignore, now, p);
      }
    }
  }

  lemma TurnsConverge(round: seq<DeviceId>, ws: seq<World>, ignore: IgnoreRules)
    requires Turns(round + round, ws, ignore)
    requires AllIdle(ws[2 * |round|]) && Shared(ws[2 * |round|], ignore)
    requires ws[|round|].devices.Keys == ws[2 * |round|].devices.Keys == ws[0].devices.Keys
    requires forall e :: e in ws[0].devices ==> e in round
    ensures var last := ws[2 * |round|];
            && SameVersions(ws[|round|], last, ignore)
            && forall e :: e in last.devices ==> Mirrors(last, last.devices[e], ignore) && NothingToDo(last, e)
  {
    var n, order := |round|, round + round;
    TurnsKeep(order, ws, ignore, n);
    forall e | e in ws[n].devices ensures Quiet(ws[n].devices[e], ignore) {
      var j :| 0 <= j < n && round[j] == e;
      assert order[j] == e;
    }
    QuietTurnsMirror(order, ws, ignore, n, 2 * n);
    var last := ws[2 * n];
    forall e | e in last.devices ensures Mirrors(last, last.devices[e], ignore) && NothingToDo(last, e) {
      var j :| 0 <= j < n && round[j] == e;
      assert order[n + j] == e;
      MirrorHasNothingToDo(last, e, ignore);
    }
  }

  // ---- Clean cycles exist -----------------------------------------------------------------

  /** Whenever the diff shows no conflict, a cycle in which nothing fails gets to its checkpoint. */
  lemma CleanCycleExists(w: World, d: DeviceId, now: nat)
    requires Enabled(w, Begin(d, now)) && LiveHashes(w.files)
    requires forall p :: PlanAt(Do(w, Begin(d, now)).devices[d], p) != Clash
    ensures exists w' :: CleanCycle(w, w', d)
  {
    var ws, steps := ChoicesCanBeCarriedOut(w, d, now, map[]);
    AtTheEnd(w, now, ws, steps, Checkpoint(d), d, map[]);
    NothingHeld(ws[0].devices[d], ws[|steps|].devices[d], map[]);
    assert CleanRun(w, now, ws, steps, d);
    assert CleanCycle(w, Do(ws[|steps|], Checkpoint(d)), d);
  }

  /** Without conflicts there is nothing to defer and nothing to copy. */
  lemma NothingHeld(dev: Device, dev': Device, choices: Choices)
    requires dev.cycle.Some? && dev'.cycle.Some? && SamePlan(dev, dev')
    requires HeldAsAnswered(dev', choices) && CopiesInv(dev', choices)
    requires forall p :: PlanAt(dev, p) != Clash
    ensures dev'.cycle.value.held == {}
  {
    forall p ensures p !in dev'.cycle.value.held {
      SamePlanAt(dev, dev', choices, p);
      if q :| PlanAt(dev', q) == Clash && Chosen(dev', choices, q) == KeepBoth && p == ConflictCopyPath(q) {
        SamePlanAt(dev, dev', choices, q);
      }
    }
  }

  // ---- The second pass is clean by itself -------------------------------------------------

  /** A cycle in which nothing fails, whatever the user answers. */
  ghost predicate Succeeds(w: World, w': World, d: DeviceId) {
    exists now, ws, steps, choices :: SucceedsWith(w, w', d, now, ws, steps, choices)
  }

  ghost predicate SucceedsWith(w: World, w': World, d: DeviceId, now: nat, ws: seq<World>, steps: seq<Step>,
                               choices: Choices) {
    && SoloRun(w, now, ws, steps, Checkpoint(d), d, choices)
    && HeldAsAnswered(ws[|steps|].devices[d], choices) && w' == Do(ws[|steps|], Checkpoint(d))
  }

  lemma QuietHasNoClash(w: World, d: DeviceId, now: nat, p: Path)
    requires Enabled(w, Begin(d, now)) && Quiet(w.devices[d], w.devices[d].ignore)
    ensures PlanAt(Do(w, Begin(d, now)).devices[d], p) != Clash
  {
    if !w.devices[d].ignore(p) {
      WorkingShowsDisk(w.devices[d].disk, w.devices[d].base, w.devices[d].ignore, now, p);
    }
  }

  /** Without conflicts the answers do not matter. */
  lemma AnswersDoNotMatter(ws: seq<World>, steps: seq<Step>, d: DeviceId, choices: Choices, disk0: Disk, k: nat)
    requires SoloSteps(ws, steps, d, choices) && k < |steps| && SoloInv(ws[0], d, choices, disk0)
    requires forall p :: PlanAt(ws[0].devices[d], p) != Clash
    ensures SoloStep(ws[k], d, map[], steps[k])
  {
    SoloStepsKeep(ws, steps, d, choices, disk0, k);
    forall p ensures PlanAt(ws[k].devices[d], p) != Clash {
      SamePlanAt(ws[0].devices[d], ws[k].devices[d], choices, p);
    }
    assert SoloStep(ws[k], d, choices, steps[k]);
  }

  lemma QuietCycleIsClean(w: World, w': World, d: DeviceId)
    requires d in w.devices && Quiet(w.devices[d], w.devices[d].ignore) && Succeeds(w, w', d)
    ensures CleanCycle(w, w', d)
  {
    var now: nat, ws: seq<World>, steps: seq<Step>, choices: Choices :| SucceedsWith(w, w', d, now, ws, steps, choices);
    forall p ensures PlanAt(ws[0].devices[d], p) != Clash {
      QuietHasNoClash(w, d, now, p);
    }
    BeginStartsSolo(w, d, now, choices);
    forall k | 0 <= k < |steps| ensures SoloStep(ws[k], d, map[], steps[k]) {
      AnswersDoNotMatter(ws, steps, d, choices, w.devices[d].disk, k);
    }
    AtTheEnd(w, now, ws, steps, Checkpoint(d), d, choices);
    NothingHeld(ws[0].devices[d], ws[|steps|].devices[d], choices);
    assert CleanRun(w, now, ws, steps, d);
  }

  /** A pass in which nothing fails. */
  ghost predicate PassSucceeds(round: seq<DeviceId>, vs: seq<World>) {
    && |vs| == |round| + 1
    && forall k {:trigger round[k]} :: 0 <= k < |round| ==>
         round[k] in vs[k].devices && Succeeds(vs[k], vs[k + 1], round[k])
  }

  ghost predicate AllQuiet(w: World, ignore: IgnoreRules) {
    forall e :: e in w.devices ==> Quiet(w.devices[e], ignore)
  }

  lemma QuietTurn(w: World, w': World, d: DeviceId, ignore: IgnoreRules)
    requires QuietWorld(w, ignore) && d in w.devices && Succeeds(w, w', d)
    ensures CleanCycle(w, w', d) && Synced(w, w', d, ignore) && QuietWorld(w', ignore)
  {
    QuietCycleIsClean(w, w', d);
    CleanCycleSyncs(w, w', d, ignore);
    SyncedMeans(w, w', d, ignore);
  }

  ghost predicate QuietWorld(w: World, ignore: IgnoreRules) {
    AllIdle(w) && Shared(w, ignore) && AllQuiet(w, ignore)
  }

  lemma SucceedsAt(round: seq<DeviceId>, vs: seq<World>, k: nat)
    requires PassSucceeds(round, vs) && k < |round|
    ensures round[k] in vs[k].devices && Succeeds(vs[k], vs[k + 1], round[k])
  {
  }

  lemma {:induction false} SecondPassIsQuiet(round: seq<DeviceId>, vs: seq<World>, ignore: IgnoreRules, k: nat)
    requires PassSucceeds(round, vs) && k <= |round| && QuietWorld(vs[0], ignore)
    ensures QuietWorld(vs[k], ignore)
  {
    if k > 0 {
      SecondPassIsQuiet(round, vs, ignore, k - 1);
      SucceedsAt(round, vs, k - 1);
      QuietTurn(vs[k - 1], vs[k], round[k - 1], ignore);
    }
  }

  /** Once every device is without edits of its own, a pass in which nothing fails meets no conflict. */
  lemma SecondPassIsClean(round: seq<DeviceId>, vs: seq<World>, ignore: IgnoreRules, k: nat)
    requires PassSucceeds(round, vs) && k < |round| && QuietWorld(vs[0], ignore)
    ensures round[k] in vs[k].devices
    ensures CleanCycle(vs[k], vs[k + 1], round[k]) && Synced(vs[k], vs[k + 1], round[k], ignore)
  {
    SecondPassIsQuiet(round, vs, ignore, k);
    SucceedsAt(round, vs, k);
    QuietTurn(vs[k], vs[k + 1], round[k], ignore);
  }

  lemma SecondPassTurns(round: seq<DeviceId>, vs: seq<World>, ignore: IgnoreRules)
    requires PassSucceeds(round, vs) && QuietWorld(vs[0], ignore)
    ensures Turns(round, vs, ignore)
  {
    forall k | 0 <= k < |round| ensures round[k] in vs[k].devices && Synced(vs[k], vs[k + 1], round[k], ignore) {
      SecondPassIsClean(round, vs, ignore, k);
    }
  }

  lemma FirstPassTurns(round: seq<DeviceId>, ws: seq<World>, ignore: IgnoreRules)
    requires TakeTurns(round, ws) && AllIdle(ws[0]) && Shared(ws[0], ignore) &&
             forall e :: e in ws[0].devices ==> e in round
    ensures Turns(round, ws, ignore) && QuietWorld(ws[|round|], ignore) &&
            ws[|round|].devices.Keys == ws[0].devices.Keys
  {
    TakenTurns(round, ws, ignore, |round|);
    assert Turns(round, ws, ignore);
    TurnsKeep(round, ws, ignore, |round|);
  }

  lemma {:induction false} TurnsKeepKeys(round: seq<DeviceId>, vs: seq<World>, ignore: IgnoreRules, k: nat)
    requires Turns(round, vs, ignore) && k <= |round|
    ensures vs[k].devices.Keys == vs[0].devices.Keys && AllIdle(vs[k]) && Shared(vs[k], ignore)
  {
    if k > 0 {
      TurnsKeepKeys(round, vs, ignore, k - 1);
      assert Synced(vs[k - 1], vs[k], round[k - 1], ignore);
    }
  }

  /**
   * Convergence. A round-robin pass of cycles without conflict or failure, from any disks, bases and
   * server contents, and a second pass in which nothing fails, whatever is answered: the second pass
   * changes nothing on the server, then every device holds exactly the server's files, and whoever
   * looks next finds nothing to do.
   */
  lemma TwoPassesConverge(round: seq<DeviceId>, ws: seq<World>, vs: seq<World>, ignore: IgnoreRules)
    requires TakeTurns(round, ws) && PassSucceeds(round, vs) && vs[0] == ws[|round|]
    requires AllIdle(ws[0]) && Shared(ws[0], ignore) && forall e :: e in ws[0].devices ==> e in round
    ensures var last := vs[|round|];
            && SameVersions(ws[|round|], last, ignore)
            && last.devices.Keys == ws[0].devices.Keys
            && forall e :: e in last.devices ==> Mirrors(last, last.devices[e], ignore) && NothingToDo(last, e)
  {
    FirstPassTurns(round, ws, ignore);
    SecondPassTurns(round, vs, ignore);
    TurnsKeepKeys(round, vs, ignore, |round|);
    TurnsJoin(round, ws, vs, ignore);
    var us := ws + vs[1..];
    assert us[2 * |round|] == vs[|round|] && us[|round|] == ws[|round|] && us[0] == ws[0];
    TurnsConverge(round, us, ignore);
  }

  lemma TurnsJoin(round: seq<DeviceId>, ws: seq<World>, vs: seq<World>, ignore: IgnoreRules)
    requires Turns(round, ws, ignore) && Turns(round, vs, ignore) && vs[0] == ws[|round|]
    ensures Turns(round + round, ws + vs[1..], ignore)
  {
    var n, order, us := |round|, round + round, ws + vs[1..];
    forall k | 0 <= k < |order| ensures order[k] in us[k].devices && Synced(us[k], us[k + 1], order[k], ignore) {
      if k < n {
        assert order[k] == round[k];
      } else {
        assert order[k] == round[k - n] && us[k] == vs[k - n] && us[k + 1] == vs[k - n + 1];
      }
    }
  }
}
