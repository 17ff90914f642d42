/** `apply_downloads` and `fetch_one`: local deletes one by one, then fetches that share a stop flag. */
module Downloads {
  import opened Types
  import opened LocalState

  const DOWNLOAD_CONCURRENCY := 8

  ghost predicate DistinctPaths(actions: seq<SyncAction>) {
    forall i, j :: 0 <= i < j < |actions| ==> actions[i].path != actions[j].path
  }

  /** Every planned delete is gone from disk or a recorded failure that is not fatal; no other file has changed. */
  ghost predicate Deleted(deletes: seq<SyncAction>, disk0: Disk, disk: Disk, failures: seq<SyncFailure>) {
    && (forall i :: 0 <= i < |deletes| ==>
          OnDisk(disk, deletes[i].path).Gone? || SyncFailure(deletes[i].path, DeleteLocal, false) in failures)
    && (forall p :: p in disk0 && p !in disk ==> exists i :: 0 <= i < |deletes| && deletes[i].path == p)
    && (forall p :: p in disk ==> p in disk0 && disk[p] == disk0[p])
    && (forall f :: f in failures ==>
        !f.fatal && f.path in disk && exists i :: 0 <= i < |deletes| && deletes[i].path == f.path)
  }

  /** A missing file is already deleted; any other may refuse to go, which is never fatal. */
  method DeleteLocally(deletes: seq<SyncAction>, removable: Path -> bool, disk0: Disk)
    returns (disk: Disk, failures: seq<SyncFailure>)
    ensures Deleted(deletes, disk0, disk, failures)
    ensures forall p :: p in disk0 && p !in disk ==> removable(p)
    ensures forall f :: f in failures ==> !removable(f.path)
  {
    disk, failures := disk0, [];
    for k := 0 to |deletes|
      invariant forall i :: 0 <= i < k ==>
                  OnDisk(disk, deletes[i].path).Gone? || SyncFailure(deletes[i].path, DeleteLocal, false) in failures
      invariant forall p :: p in disk0 && p !in disk ==> removable(p) && exists i :: 0 <= i < k && deletes[i].path == p
      invariant forall p :: p in disk ==> p in disk0 && disk[p] == disk0[p]
      invariant forall f :: f in failures ==>
                  !f.fatal && !removable(f.path) && f.path in disk0 &&
                      exists i :: 0 <= i < k && deletes[i].path == f.path
    {
      var p := deletes[k].path;
      if p in disk {
        if removable(p) {
          disk := disk - {p};
        } else {
          failures := failures + [SyncFailure(p, DeleteLocal, false)];
        }
      }
    }
  }

  // ---- Concurrent fetches -----------------------------------------------------------------

  /** One fetch: started only when the flag is down; a fatal error raises the flag before it returns. */
  datatype Fetch = Waiting | Skipped | InFlight | Erring(fatal: bool) | Written(file: DiskFile) | Failed(fatal: bool)

  datatype State = State(fetches: seq<Fetch>, stop: bool, disk: Disk)

  datatype FetchStep = Start(i: nat) | Arrive(i: nat, file: DiskFile) | Err(i: nat, fatal: bool) | Return(i: nat)

  function Busy(fetches: seq<Fetch>): nat {
    if fetches == [] then 0
    else
      var last := fetches[|fetches| - 1];
      Busy(fetches[..|fetches| - 1]) + if last.InFlight? || last.Erring? then 1 else 0
  }

  ghost predicate Enabled(s: State, step: FetchStep) {
    && step.i < |s.fetches|
    && match step
       case Start(i) =>
         s.fetches[i].Waiting? && Busy(s.fetches) < DOWNLOAD_CONCURRENCY &&
             forall j :: 0 <= j < i ==> !s.fetches[j].Waiting?
       case Arrive(i, _) => s.fetches[i].InFlight?
       case Err(i, _) => s.fetches[i].InFlight?
       case Return(i) => s.fetches[i].Erring?
  }

  ghost function Do(actions: seq<SyncAction>, s: State, step: FetchStep): State
    requires |actions| == |s.fetches| && Enabled(s, step)
  {
    match step
    case Start(i) => s.(fetches := s.fetches[i := if s.stop then Skipped else InFlight])
    case Arrive(i, file) => s.(fetches := s.fetches[i := Written(file)], disk := s.disk[actions[i].path := file])
    case Err(i, fatal) => s.(fetches := s.fetches[i := Erring(fatal)])
    case Return(i) => s.(fetches := s.fetches[i := Failed(s.fetches[i].fatal)], stop := s.stop || s.fetches[i].fatal)
  }

  ghost predicate IsRun(actions: seq<SyncAction>, disk0: Disk, states: seq<State>, steps: seq<FetchStep>) {
    && |states| == |steps| + 1
    && states[0] == State(seq(|actions|, _ => Waiting), false, disk0)
    && forall k :: 0 <= k < |steps| ==>
         |states[k].fetches| == |actions| && Enabled(states[k], steps[k]) &&
             states[k + 1] == Do(actions, states[k], steps[k])
  }

  ghost predicate Finished(s: State) {
    forall i :: 0 <= i < |s.fetches| ==> s.fetches[i].Skipped? || s.fetches[i].Written? || s.fetches[i].Failed?
  }

  ghost predicate Inv(actions: seq<SyncAction>, disk0: Disk, s: State) {
    && |s.fetches| == |actions|
    && (s.stop <==> Failed(true) in s.fetches)
    && (Skipped in s.fetches ==> s.stop)
    && (forall i :: 0 <= i < |actions| && s.fetches[i].Written? ==>
          actions[i].path in s.disk && s.disk[actions[i].path] == s.fetches[i].file)
    && (forall p :: (forall i :: 0 <= i < |actions| && s.fetches[i].Written? ==> actions[i].path != p) ==>
          Get(s.disk, p) == Get(disk0, p))
  }

  lemma StepKeepsInv(actions: seq<SyncAction>, disk0: Disk, s: State, step: FetchStep)
    requires DistinctPaths(actions) && Inv(actions, disk0, s) && Enabled(s, step)
    ensures Inv(actions, disk0, Do(actions, s, step))
  {
    var s' := Do(actions, s, step);
    assert forall k :: 0 <= k < |actions| && k != step.i ==> s'.fetches[k] == s.fetches[k];
    assert s.stop <==> Failed(true) in s.fetches;
    assert s'.fetches[step.i] in s'.fetches;
    assert forall f :: f in s'.fetches ==> f in s.fetches || f == s'.fetches[step.i];
    assert s.fetches[step.i] != Failed(true) && s.fetches[step.i] != Skipped;
    assert forall f :: f in s.fetches && f != s.fetches[step.i] ==> f in s'.fetches;
  }

  lemma {:induction false} RunKeepsInv(actions: seq<SyncAction>, disk0: Disk, states: seq<State>,
                                       steps: seq<FetchStep>, k: nat)
    requires DistinctPaths(actions) && IsRun(actions, disk0, states, steps) && k <= |steps|
    ensures Inv(actions, disk0, states[k])
  {
    if k > 0 {
      RunKeepsInv(actions, disk0, states, steps, k - 1);
      StepKeepsInv(actions, disk0, states[k - 1], steps[k - 1]);
    }
  }

  /** The failures the collected outcomes yield, in some order. */
  ghost predicate Collects(actions: seq<SyncAction>, s: State, failures: seq<SyncFailure>) {
    && |s.fetches| == |actions|
    && forall f :: f in failures <==>
         exists i :: 0 <= i < |actions| && s.fetches[i].Failed? &&
             f == SyncFailure(actions[i].path, Download, s.fetches[i].fatal)
  }

  /**
   * Over every interleaving: a fetch that was never attempted implies a recorded fatal failure;
   * without one, every planned download is on disk as it was fetched or is a recorded failure,
   * and every other file is as it was.
   */
  lemma FetchesAreAccountedFor(actions: seq<SyncAction>, disk0: Disk, states: seq<State>, steps: seq<FetchStep>,
                               failures: seq<SyncFailure>)
    requires DistinctPaths(actions) && IsRun(actions, disk0, states, steps)
    requires Finished(states[|steps|]) && Collects(actions, states[|steps|], failures)
    ensures var s := states[|steps|];
            && (Skipped in s.fetches ==> exists f :: f in failures && f.fatal)
            && ((forall f :: f in failures ==> !f.fatal) ==>
                  forall i :: 0 <= i < |actions| ==>
                    || (s.fetches[i].Written? && Get(s.disk, actions[i].path) == Some(s.fetches[i].file))
                    || SyncFailure(actions[i].path, Download, false) in failures)
            && forall p :: (forall i :: 0 <= i < |actions| ==> actions[i].path != p) ==> Get(s.disk, p) == Get(disk0, p)
  {
    var s := states[|steps|];
    RunKeepsInv(actions, disk0, states, steps, |steps|);
    if Skipped in s.fetches {
      var i :| 0 <= i < |actions| && s.fetches[i] == Failed(true);
      assert SyncFailure(actions[i].path, Download, true) in failures;
    }
    if forall f :: f in failures ==> !f.fatal {
      forall i | 0 <= i < |actions|
        ensures s.fetches[i].Written? || SyncFailure(actions[i].path, Download, false) in failures
      {
        assert s.fetches[i] in s.fetches;
        assert s.fetches[i].Failed? ==> SyncFailure(actions[i].path, Download, s.fetches[i].fatal) in failures;
      }
    }
  }
}
