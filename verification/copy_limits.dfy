/** Where `KeepBoth` of `core/src/sync_engine.rs` falls short: a copy path that is taken, on disk or on the server. */
module CopyLimits {
  import opened Types
  import opened Manifests
  import opened SyncRules
  import opened LocalState
  import opened ServerGate
  import opened Protocol
  import opened SoloCycle
  import opened Resume
  import opened Resolution

  /** A version that was at `q` on this disk is neither there nor on the server any more. */
  ghost predicate LostAt(w: World, w': World, d: DeviceId, q: Path)
    requires d in w.devices && d in w'.devices
  {
    var was := OnDisk(w.devices[d].disk, q);
    was.Present? && OnDisk(w'.devices[d].disk, q) != was && At(w'.files, q) != was
  }

  /**
   * The copy is written without looking: the file at its path is destroyed exactly when it holds
   * something else than the copy, and lost exactly when the server does not have it there either.
   */
  lemma CopyDestroysIff(w: World, s: Step)
    requires Enabled(w, s) && s.CopyRemote?
    ensures var disk, disk', q := w.devices[s.d].disk, Do(w, s).devices[s.d].disk, ConflictCopyPath(s.p);
            && (OnDisk(disk, q).Present? && OnDisk(disk', q) != OnDisk(disk, q) <==>
                q in disk && disk[q].hash != s.copy.hash)
            && (LostAt(w, Do(w, s), s.d, q) <==>
                q in disk && disk[q].hash != s.copy.hash && At(w.files, q) != Present(disk[q].hash))
            && forall p :: p != q ==> Get(disk', p) == Get(disk, p)
  {
  }

  // ---- A copy that the server refuses -----------------------------------------------------

  const OURS := DiskFile("k", 0, 0)
  const THEIRS := DiskFile("h", 0, 0)
  const THEIR_ROW := FileEntry("h", 0, 0, false, "a")
  const OUR_ENTRY := FileEntry("k", 0, 0, false, "")
  const OLD_COPY := FileEntry("t", 0, 0, true, "")

  ghost function Nobody(p: Path): bool { false }

  ghost const BOTH: Choices := map["a" := KeepBoth]

  lemma CopyOfA()
    ensures ConflictCopyPath("a") == "a.conflict"
  {
    assert AfterLast("a", '/') == 0 && AfterLast("a", '.') == 0;
    assert "a"[0..] == "a" && "a"[..0] == "";
  }

  const NOTES := DiskFile("n", 0, 0)

  /** A conflict at `a`, and a file of the user's own where its copy goes. */
  ghost function Occupied(): World {
    var working := map["a" := OUR_ENTRY, "a.conflict" := FileEntry("n", 0, 0, false, "")];
    World(map["a" := THEIR_ROW],
          map[0 := Device(map["a" := OURS, "a.conflict" := NOTES], map[], Nobody,
                          Some(Cycle(working, map["a" := THEIR_ROW], {}, {}, map[], false, {}, {})), {})])
  }

  /** The copy goes over the user's own file, which nobody else has. */
  lemma ACopyDestroys()
    ensures Enabled(Occupied(), CopyRemote(0, "a", THEIRS))
    ensures LostAt(Occupied(), Do(Occupied(), CopyRemote(0, "a", THEIRS)), 0, "a.conflict")
  {
    CopyOfA();
    assert PlanAt(Occupied().devices[0], "a") == Clash;
    CopyDestroysIff(Occupied(), CopyRemote(0, "a", THEIRS));
  }

  /** The server has another version of `a`, and a tombstone where an earlier copy was. */
  ghost const ROWS: Manifest := map["a" := THEIR_ROW, "a.conflict" := OLD_COPY]

  ghost function Before(): World {
    World(ROWS, map[0 := Device(map["a" := OURS], map[], Nobody, None, {})])
  }

  ghost function InRound(disk: Disk, c: Cycle, had: set<(Path, Hash)>): Device {
    Device(disk, map[], Nobody, Some(c), had)
  }

  ghost function Fresh(): Cycle {
    Cycle(map["a" := OUR_ENTRY], ROWS, {}, {}, map[], false, {}, {})
  }

  lemma Snapshot() returns (w: World)
    ensures Enabled(Before(), Begin(0, 0)) && w == Do(Before(), Begin(0, 0))
    ensures w.files == ROWS && w.devices.Keys == {0}
    ensures w.devices[0] == InRound(map["a" := OURS], Fresh(), w.devices[0].had)
  {
    w := Do(Before(), Begin(0, 0));
    var scanned := Scan(map["a" := OURS], Nobody);
    assert scanned == map["a" := OUR_ENTRY];
    assert WorkingManifest(scanned, map[], 0) == scanned;
  }

  lemma WritesCopy(w: World) returns (w': World)
    requires w.files == ROWS && w.devices.Keys == {0} &&
             w.devices[0] == InRound(map["a" := OURS], Fresh(), w.devices[0].had)
    ensures SoloStep(w, 0, BOTH, CopyRemote(0, "a", THEIRS)) && w' == Do(w, CopyRemote(0, "a", THEIRS))
    ensures w'.files == ROWS && w'.devices.Keys == {0}
    ensures w'.devices[0] == InRound(map["a" := OURS, "a.conflict" := THEIRS],
                                     Fresh().(copies := map["a.conflict" := "h"]), w'.devices[0].had)
  {
    CopyOfA();
    var dev := w.devices[0];
    assert PlanAt(dev, "a") == Clash;
    assert ConflictAt(dev, "a") == Conflict("a", OUR_ENTRY, THEIR_ROW);
    assert Chosen(dev, BOTH, "a") == KeepBoth;
    w' := Do(w, CopyRemote(0, "a", THEIRS));
    assert {} - {"a.conflict"} == {};
  }

  lemma SendsKept(w: World) returns (w': World)
    requires w.files == ROWS && w.devices.Keys == {0}
    requires w.devices[0] == InRound(map["a" := OURS, "a.conflict" := THEIRS],
                                     Fresh().(copies := map["a.conflict" := "h"]), w.devices[0].had)
    ensures SoloStep(w, 0, BOTH, SendKept(0, "a", 0, true)) && w' == Do(w, SendKept(0, "a", 0, true))
    ensures w'.devices.Keys == {0} && Get(w'.files, "a.conflict") == Some(OLD_COPY)
    ensures w'.devices[0] == w.devices[0].(
              cycle := Some(Fresh().(copies := map["a.conflict" := "h"], settled := {"a"}, landed := {"a"})))
  {
    CopyOfA();
    var dev := w.devices[0];
    assert PlanAt(dev, "a") == Clash;
    assert ConflictAt(dev, "a") == Conflict("a", OUR_ENTRY, THEIR_ROW);
    assert Chosen(dev, BOTH, "a") == KeepBoth;
    var op := KeptOp(dev, "a");
    assert op == Put("a", "h", "k", 0, "a");
    w' := Do(w, SendKept(0, "a", 0, true));
    assert ReplyTo(w.files, op) == Ok;
    assert {} + {"a"} == {"a"};
  }

  lemma SendsCopy(w: World) returns (w': World)
    requires w.devices.Keys == {0} && Get(w.files, "a.conflict") == Some(OLD_COPY)
    requires w.devices[0].cycle == Some(Fresh().(copies := map["a.conflict" := "h"], settled := {"a"}, landed := {"a"}))
    ensures SoloStep(w, 0, BOTH, SendCopy(0, "a.conflict", 0, true)) && w' == Do(w, SendCopy(0, "a.conflict", 0, true))
    ensures w'.devices.Keys == {0} && w'.files == w.files
    ensures w'.devices[0] == w.devices[0].(cycle := Some(w.devices[0].cycle.value.(held := {"a.conflict"})))
  {
    var dev := w.devices[0];
    assert "a.conflict" !in dev.cycle.value.settled;
    CopyIsAcceptedIff(w, 0, "a.conflict");
    w' := Do(w, SendCopy(0, "a.conflict", 0, true));
    assert {} + {"a.conflict"} == {"a.conflict"};
  }

  lemma CanCheckpoint(w: World)
    requires 0 in w.devices && w.devices[0].base == map[] && w.devices[0].ignore == Nobody
    requires w.devices[0].cycle ==
             Some(Fresh().(copies := map["a.conflict" := "h"], settled := {"a"}, landed := {"a"},
                           held := {"a.conflict"}))
    ensures Ends(w, 0, Checkpoint(0)) && HeldAsAnswered(w.devices[0], BOTH)
  {
    var dev := w.devices[0];
    forall p ensures !Open(dev, p) {
      assert p != "a" && p != "a.conflict" ==> PlanAt(dev, p) == Nothing;
    }
  }

  /** The conflict at `a`, both sides live, both to be kept, and the copy path blocked. */
  lemma IsBlocked(w: World)
    requires w.files == ROWS && w.devices.Keys == {0} &&
             w.devices[0] == InRound(map["a" := OURS], Fresh(), w.devices[0].had)
    ensures var dev := w.devices[0];
            PlanAt(dev, "a") == Clash && Chosen(dev, BOTH, "a") == KeepBoth && CopyBlocked(dev, BOTH, "a")
  {
    CopyOfA();
    assert ConflictAt(w.devices[0], "a") == Conflict("a", OUR_ENTRY, THEIR_ROW);
  }

  lemma RefusedRun() returns (ws: seq<World>, steps: seq<Step>)
    ensures SoloRun(Before(), 0, ws, steps, Checkpoint(0), 0, BOTH)
    ensures InCycle(ws[|steps|], 0) && HeldAsAnswered(ws[|steps|].devices[0], BOTH)
  {
    var w0 := Snapshot();
    var w1 := WritesCopy(w0);
    var w2 := SendsKept(w1);
    var w3 := SendsCopy(w2);
    CanCheckpoint(w3);
    ws, steps := InARow(w0, CopyRemote(0, "a", THEIRS), w1, SendKept(0, "a", 0, true), w2,
                        SendCopy(0, "a.conflict", 0, true), w3, 0, BOTH);
  }

  lemma InARow(w0: World, s0: Step, w1: World, s1: Step, w2: World, s2: Step, w3: World, d: DeviceId, choices: Choices)
    returns (ws: seq<World>, steps: seq<Step>)
    requires SoloStep(w0, d, choices, s0) && w1 == Do(w0, s0) && SoloStep(w1, d, choices, s1) && w2 == Do(w1, s1)
    requires SoloStep(w2, d, choices, s2) && w3 == Do(w2, s2)
    ensures SoloSteps(ws, steps, d, choices) && ws[0] == w0 && |steps| == 3 && ws[3] == w3
  {
    OneStepSooner(w2, s2, [w3], [], d, choices);
    OneStepSooner(w1, s1, [w2] + [w3], [s2] + [], d, choices);
    OneStepSooner(w0, s0, [w1] + ([w2] + [w3]), [s1] + ([s2] + []), d, choices);
    ws, steps := [w0] + ([w1] + ([w2] + [w3])), [s0] + ([s1] + ([s2] + []));
  }

  /** A whole cycle in which everything is answered and yet `KeepBoth` does not leave both versions on both sides. */
  lemma ACopyIsRefused() returns (ws: seq<World>, steps: seq<Step>)
    ensures SoloRun(Before(), 0, ws, steps, Checkpoint(0), 0, BOTH)
    ensures InCycle(ws[0], 0) && InCycle(ws[|steps|], 0) && HeldAsAnswered(ws[|steps|].devices[0], BOTH)
    ensures PlanAt(ws[0].devices[0], "a") == Clash && Chosen(ws[0].devices[0], BOTH, "a") == KeepBoth
    ensures !Faithful(ws[0], Do(ws[|steps|], Checkpoint(0)), 0, BOTH, "a")
  {
    ws, steps := RefusedRun();
    var w0 := Snapshot();
    IsBlocked(w0);
    ChoicesAreCarriedOut(Before(), 0, ws, steps, 0, BOTH, 0, "a");
  }
}
