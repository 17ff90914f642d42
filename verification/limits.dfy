/** Where the guarantees end: each hypothesis of the safety theorem is needed, and exactly when it bites. */
module Limits {
  import opened Types
  import opened Manifests
  import opened LocalState
  import opened ServerGate
  import opened Protocol
  import opened NoLostUpdate

  /** A base row taken over from the server is pushed back, stale, exactly when the disk does not hold it. */
  lemma AdoptedRowIsPushedBack(base: Manifest, disk: Disk, remote: Manifest, ignore: IgnoreRules, now: nat, p: Path)
    requires !ignore(p) && At(base, p) == At(remote, p)
    ensures var plan := Plan(base, WorkingManifest(Scan(disk, ignore), base, now), remote, ignore, p);
            && (plan.Up? <==> OnDisk(disk, p) != At(remote, p))
            && (plan == Up(DeleteRemote) <==> OnDisk(disk, p).Gone? && At(remote, p).Present?)
  {
    WorkingShowsDisk(disk, base, ignore, now, p);
  }

  /** Device `d`'s next cycle replaces the live version at `p`, and never had that version. */
  ghost predicate LosesUnseen(w: World, d: DeviceId, p: Path, later: nat) {
    var s := Send(d, p, later, true);
    && Enabled(w, s) && ReplacesLive(w, s) && (p, At(w.files, p).hash) !in w.devices[d].had
  }

  /**
   * The checkpoint takes over whatever the second fetch shows. The next cycle then overwrites a
   * version the device never had exactly when the row taken over is neither on its disk nor one
   * it ever had, and only a write of another device since the snapshot can leave such a row.
   */
  lemma AbsorbedWriteIsLost(w: World, d: DeviceId, now: nat, later: nat, p: Path)
    requires Inv(w) && Enabled(w, Checkpoint(d))
    requires !w.devices[d].ignore(p) && p !in w.devices[d].cycle.value.held && At(w.files, p).Present?
    ensures var dev, next := w.devices[d], Do(Do(w, Checkpoint(d)), Begin(d, now));
            var unseen := (p, At(w.files, p).hash) !in dev.had;
            && (LosesUnseen(next, d, p, later) <==> unseen && OnDisk(dev.disk, p) != At(w.files, p))
            && (unseen ==> p in dev.cycle.value.touched)
  {
    OnlyForeignWritesAreUnseen(w, d, p);
    StalePushLoses(w, d, now, later, p);
  }

  lemma OnlyForeignWritesAreUnseen(w: World, d: DeviceId, p: Path)
    requires Inv(w) && Enabled(w, Checkpoint(d))
    requires !w.devices[d].ignore(p) && p !in w.devices[d].cycle.value.held && At(w.files, p).Present?
    ensures (p, At(w.files, p).hash) !in w.devices[d].had ==> p in w.devices[d].cycle.value.touched
  {
    var dev := w.devices[d];
    assert Grounded(dev) && Tracks(dev, w.files);
    assert HadOrGone(dev.had, p, At(dev.base, p)) && HadOrGone(dev.had, p, At(dev.cycle.value.working, p));
    assert !Open(dev, p);
  }

  /** The device at the start of the cycle after its checkpoint. */
  ghost function NextDevice(w: World, d: DeviceId, now: nat): Device
    requires Enabled(w, Checkpoint(d))
  {
    Do(Do(w, Checkpoint(d)), Begin(d, now)).devices[d]
  }

  lemma NextDeviceIs(w: World, d: DeviceId, now: nat, p: Path)
    requires Enabled(w, Checkpoint(d)) && !w.devices[d].ignore(p) && p !in w.devices[d].cycle.value.held
    ensures var dev, next := w.devices[d], NextDevice(w, d, now);
            && next.cycle.Some? && next.disk == dev.disk && next.ignore == dev.ignore
            && next.cycle.value.remote == w.files && next.cycle.value.settled == next.cycle.value.held == {}
            && next.cycle.value.working == WorkingManifest(Scan(dev.disk, dev.ignore), next.base, now)
            && Get(next.base, p) == Get(w.files, p)
            && forall h :: (p, h) in next.had <==> (p, h) in dev.had || OnDisk(dev.disk, p) == Present(h)
  {
    NextBaseAt(w.devices[d].base, w.files, w.devices[d].cycle.value.held, p);
  }

  lemma StalePushLoses(w: World, d: DeviceId, now: nat, later: nat, p: Path)
    requires Enabled(w, Checkpoint(d))
    requires !w.devices[d].ignore(p) && p !in w.devices[d].cycle.value.held && At(w.files, p).Present?
    ensures var dev, next := w.devices[d], Do(Do(w, Checkpoint(d)), Begin(d, now));
            LosesUnseen(next, d, p, later) <==>
              (p, At(w.files, p).hash) !in dev.had && OnDisk(dev.disk, p) != At(w.files, p)
  {
    var next := Do(Do(w, Checkpoint(d)), Begin(d, now));
    NextDeviceIs(w, d, now, p);
    LosesAdoptedIff(next, d, now, later, p);
  }

  /** A cycle that starts with the server's own row in its base. */
  lemma LosesAdoptedIff(w: World, d: DeviceId, now: nat, later: nat, p: Path)
    requires InCycle(w, d) && !w.devices[d].ignore(p) && At(w.files, p).Present?
    requires var dev := w.devices[d];
             var c := dev.cycle.value;
             && c.remote == w.files && c.settled == c.held == {} && Get(dev.base, p) == Get(w.files, p)
             && c.working == WorkingManifest(Scan(dev.disk, dev.ignore), dev.base, now)
    ensures LosesUnseen(w, d, p, later) <==>
              (p, At(w.files, p).hash) !in w.devices[d].had && OnDisk(w.devices[d].disk, p) != At(w.files, p)
  {
    var dev := w.devices[d];
    AdoptedRowIsPushedBack(dev.base, dev.disk, w.files, dev.ignore, now, p);
    WorkingShowsDisk(dev.disk, dev.base, dev.ignore, now, p);
  }

  /**
   * The gate compares hashes only. A planned upload or remote delete replaces a live version
   * exactly when the row now live has the hash of the row the diff saw, even if that row was a
   * tombstone: re-creating a file with its old content makes it fair game.
   */
  lemma GateIgnoresTombstones(w: World, s: Step)
    requires LiveHashes(w.files) && Enabled(w, s) && s.Send?
    requires At(w.devices[s.d].cycle.value.working, s.p) != Present("")
    ensures var remote := w.devices[s.d].cycle.value.remote;
            ReplacesLive(w, s) <==> s.p in remote && At(w.files, s.p) == Present(remote[s.p].hash)
  {
  }

  /**
   * So a send overwrites a version its device never had exactly when the diff saw a tombstone, the
   * file has since come back under that tombstone's hash, and the device never had it; and only
   * another device can have brought it back.
   */
  lemma StaleParentLosesIff(w: World, d: DeviceId, p: Path, now: nat)
    requires Inv(w) && Enabled(w, Send(d, p, now, true)) && At(w.devices[d].cycle.value.working, p) != Present("")
    ensures var dev := w.devices[d];
            var remote := dev.cycle.value.remote;
            && (LosesUnseen(w, d, p, now) <==>
                  p in remote && remote[p].deleted && At(w.files, p) == Present(remote[p].hash) &&
                      (p, remote[p].hash) !in dev.had)
            && (LosesUnseen(w, d, p, now) ==> p in dev.cycle.value.touched)
  {
    var dev := w.devices[d];
    assert Grounded(dev) && Tracks(dev, w.files);
    assert HadOrGone(dev.had, p, At(dev.base, p));
    GateIgnoresTombstones(w, Send(d, p, now, true));
  }

  /** Ignore rules must stay fixed: un-ignoring a path the base took over without a file deletes it remotely. */
  lemma UnignoringDeletes(w: World, d: DeviceId, now: nat, ignore: IgnoreRules, p: Path)
    requires Enabled(w, Checkpoint(d)) && w.devices[d].ignore(p) && !ignore(p)
    requires p !in w.devices[d].cycle.value.held
    ensures var dev := Do(w, Checkpoint(d)).devices[d];
            Plan(dev.base, WorkingManifest(Scan(dev.disk, ignore), dev.base, now), w.files, ignore, p) ==
                Up(DeleteRemote)
            <==> p !in dev.disk && At(w.files, p).Present?
  {
    var dev := Do(w, Checkpoint(d)).devices[d];
    NextBaseAt(w.devices[d].base, w.files, w.devices[d].cycle.value.held, p);
    AdoptedRowIsPushedBack(dev.base, dev.disk, w.files, ignore, now, p);
  }

  ghost function HidesA(p: Path): bool { p == "a" }

  /** The server has `a`, the device ignores it, and its cycle has nothing to do. */
  ghost function Blinkered(): World {
    var c := Cycle(map[], map["a" := ROW], {}, {}, map[], false, {}, {});
    World(map["a" := ROW], map[0 := Device(map[], map[], HidesA, Some(c), {})])
  }

  /** Without the rule the next cycle deletes a file it never had from the server. */
  lemma AnUnignoredFileIsDeleted()
    ensures Enabled(Blinkered(), Checkpoint(0))
    ensures var dev := Do(Blinkered(), Checkpoint(0)).devices[0];
            Plan(dev.base, WorkingManifest(Scan(dev.disk, Nobody), dev.base, 1), Blinkered().files, Nobody, "a") ==
                Up(DeleteRemote)
  {
    var dev := Blinkered().devices[0];
    forall p ensures PlanAt(dev, p) == Nothing {
    }
    UnignoringDeletes(Blinkered(), 0, 1, Nobody, "a");
  }

  // ---- A whole run that loses an update ---------------------------------------------------

  const FILE := DiskFile("h", 0, 0)

  ghost function Nobody(p: Path): bool { false }

  /** Device 0 takes its snapshot, device 1 uploads a file, device 0 checkpoints and starts over. */
  ghost const STORY: seq<Step> := [
    Join(0, map[], Nobody), Join(1, map["a" := FILE], Nobody), Begin(0, 0), Begin(1, 0),
    Send(1, "a", 0, true), Checkpoint(0), Begin(0, 1), Send(0, "a", 1, true)]

  /** A world of two devices, both without an ignore rule. */
  ghost function Two(files: Manifest, dev0: Device, dev1: Device): World {
    World(files, map[0 := dev0, 1 := dev1])
  }

  const ROW := FileEntry("h", 0, 0, false, "a")

  /** Device 0 in its cycle over an empty server, after others wrote the paths of `touched`. */
  ghost function Waiting(touched: set<Path>): Device {
    Device(map[], map[], Nobody, Some(Cycle(map[], map[], {}, {}, map[], false, {}, touched)), {})
  }

  ghost function Uploader(): Device {
    Device(map["a" := FILE], map[], Nobody,
           Some(Cycle(map["a" := FileEntry("h", 0, 0, false, "")], map[], {}, {}, map[], false, {}, {})), {("a", "h")})
  }

  lemma StoryBegins() returns (ws: seq<World>)
    ensures |ws| == 5 && ws[0].devices == map[] && ws[0].files == map[]
    ensures forall k :: 0 <= k < 4 ==> Enabled(ws[k], STORY[k]) && ws[k + 1] == Do(ws[k], STORY[k])
    ensures forall k :: 0 <= k < 5 && 0 in ws[k].devices ==> ws[k].devices[0].disk == map[]
    ensures ws[4] == Two(map[], Waiting({}), Uploader())
  {
    var w0 := World(map[], map[]);
    var w1 := Do(w0, STORY[0]);
    var w2 := Do(w1, STORY[1]);
    var w3 := Do(w2, STORY[2]);
    assert w3.devices[0] == Waiting({});
    var w4 := Do(w3, STORY[3]);
    var scanned := Scan(map["a" := FILE], Nobody);
    assert scanned == map["a" := FileEntry("h", 0, 0, false, "")];
    assert WorkingManifest(scanned, map[], 0) == scanned;
    var seen := set p | p in scanned :: (p, scanned[p].hash);
    assert "a" in scanned && ("a", scanned["a"].hash) in seen;
    assert seen == {("a", "h")};
    assert w4.devices[1] == Uploader();
    ws := [w0, w1, w2, w3, w4];
  }

  lemma StoryUploads(w4: World)
    requires w4 == Two(map[], Waiting({}), Uploader())
    ensures Enabled(w4, STORY[4]) && Do(w4, STORY[4]).files == map["a" := ROW]
    ensures Do(w4, STORY[4]).devices.Keys == {0, 1} && Do(w4, STORY[4]).devices[0] == Waiting({"a"})
  {
    assert PlanAt(w4.devices[1], "a") == Up(Upload);
    assert UploadOp(w4.devices[1], "a") == Put("a", "", "h", 0, "a");
    assert {} + {"a"} == {"a"};
  }

  lemma StoryEnds(w5: World) returns (ws: seq<World>)
    requires w5.files == map["a" := ROW] && 0 in w5.devices && w5.devices[0] == Waiting({"a"})
    ensures |ws| == 4 && ws[0] == w5
    ensures forall k :: 0 <= k < 3 ==> Enabled(ws[k], STORY[k + 5]) && ws[k + 1] == Do(ws[k], STORY[k + 5])
    ensures ReplacesLive(ws[2], STORY[7]) && At(ws[2].files, "a") == Present("h")
    ensures forall k :: 0 <= k <= 2 ==> 0 in ws[k].devices && ws[k].devices[0].disk == map[]
  {
    assert Enabled(w5, STORY[5]);
    var w6 := Do(w5, STORY[5]);
    var w7 := Do(w6, STORY[6]);
    assert w7.devices[0].base == w5.files;
    assert PlanAt(w7.devices[0], "a") == Up(DeleteRemote);
    assert UploadOp(w7.devices[0], "a") == Delete("a", "h");
    var w8 := Do(w7, STORY[7]);
    ws := [w5, w6, w7, w8];
  }

  /** Without the hypothesis the theorem fails: device 0 deletes a file that never was on its disk. */
  lemma AnUpdateIsLost() returns (ws: seq<World>)
    ensures IsRun(ws, STORY) && ReplacesLive(ws[7], STORY[7])
    ensures forall j :: 0 <= j <= 7 ==> !OnDiskInCycle(ws[j], 0, "a", At(ws[7].files, "a").hash)
  {
    var us := StoryBegins();
    StoryUploads(us[4]);
    var vs := StoryEnds(Do(us[4], STORY[4]));
    ws := us + vs;
    forall k | 0 <= k < 8 ensures Enabled(ws[k], STORY[k]) && ws[k + 1] == Do(ws[k], STORY[k]) {
      assert ws[k] == if k < 5 then us[k] else vs[k - 5];
      assert ws[k + 1] == if k < 4 then us[k + 1] else vs[k - 4];
    }
  }

  // ---- A run that meets the hypotheses ----------------------------------------------------

  const EDITED := DiskFile("k", 0, 0)

  /** One device uploads a file, edits it and uploads it again. */
  ghost const QUIET_STORY: seq<Step> := [
    Join(0, map["a" := FILE], Nobody), Begin(0, 0), Send(0, "a", 0, true), Checkpoint(0),
    Edit(0, "a", Some(EDITED)), Begin(0, 1), Send(0, "a", 1, true)]

  ghost function One(files: Manifest, dev: Device): World {
    World(files, map[0 := dev])
  }

  ghost function Synced(disk: Disk): Device {
    Device(disk, map["a" := ROW], Nobody, None, {("a", "h")})
  }

  ghost predicate QuietStep(w: World, s: Step, w': World) {
    Enabled(w, s) && w' == Do(w, s) && Undisturbed(w, s)
  }

  ghost function Newcomer(): Device {
    Device(map["a" := FILE], map[], Nobody, None, {})
  }

  ghost function Uploaded(): Device {
    Uploader().(cycle := Some(Uploader().cycle.value.(settled := {"a"}, landed := {"a"})))
  }

  lemma QuietBegin() returns (w1: World, w2: World)
    ensures QuietStep(World(map[], map[]), QUIET_STORY[0], w1) && QuietStep(w1, QUIET_STORY[1], w2)
    ensures w2 == One(map[], Uploader())
  {
    w1 := One(map[], Newcomer());
    assert World(map[], map[]).devices[0 := Newcomer()] == w1.devices;
    w2 := One(map[], Uploader());
    var scanned := Scan(map["a" := FILE], Nobody);
    assert scanned == map["a" := FileEntry("h", 0, 0, false, "")];
    assert WorkingManifest(scanned, map[], 0) == scanned;
    var seen := set p | p in scanned :: (p, scanned[p].hash);
    assert "a" in scanned && ("a", scanned["a"].hash) in seen;
    assert {} + seen == {("a", "h")};
    assert Do(w1, QUIET_STORY[1]).devices == w2.devices;
  }

  lemma QuietSend(w2: World) returns (w3: World)
    requires w2 == One(map[], Uploader())
    ensures QuietStep(w2, QUIET_STORY[2], w3) && w3 == One(map["a" := ROW], Uploaded())
  {
    assert PlanAt(w2.devices[0], "a") == Up(Upload);
    assert UploadOp(w2.devices[0], "a") == Put("a", "", "h", 0, "a");
    w3 := Do(w2, QUIET_STORY[2]);
    assert {} + {"a"} == {"a"};
    assert w3.devices == map[0 := Uploaded()];
  }

  lemma QuietCheckpoint(w3: World) returns (w4: World)
    requires w3 == One(map["a" := ROW], Uploaded())
    ensures QuietStep(w3, QUIET_STORY[3], w4) && w4 == One(map["a" := ROW], Synced(map["a" := FILE]))
  {
    assert forall p :: !Open(w3.devices[0], p);
    assert NextBase(map[], w3.files, {}) == map["a" := ROW];
    w4 := Do(w3, QUIET_STORY[3]);
    assert w4.devices == map[0 := Synced(map["a" := FILE])];
  }

  /** The second cycle has seen the edit, over the row the first one uploaded. */
  ghost predicate AboutToReplace(w: World) {
    && w.files == map["a" := ROW] && InCycle(w, 0)
    && var dev := w.devices[0];
       dev.ignore == Nobody && dev.base == dev.cycle.value.remote == map["a" := ROW] &&
       At(dev.cycle.value.working, "a") == Present("k") &&
       dev.cycle.value.(working := map[]) == Cycle(map[], map["a" := ROW], {}, {}, map[], false, {}, {})
  }

  lemma QuietAgain(w4: World) returns (w5: World, w6: World)
    requires w4 == One(map["a" := ROW], Synced(map["a" := FILE]))
    ensures QuietStep(w4, QUIET_STORY[4], w5) && QuietStep(w5, QUIET_STORY[5], w6) && AboutToReplace(w6)
  {
    w5 := Do(w4, QUIET_STORY[4]);
    w6 := Do(w5, QUIET_STORY[5]);
  }

  lemma QuietReplace(w6: World) returns (w7: World)
    requires AboutToReplace(w6)
    ensures QuietStep(w6, QUIET_STORY[6], w7) && ReplacesLive(w6, QUIET_STORY[6])
  {
    var dev := w6.devices[0];
    assert PlanAt(dev, "a") == Up(Upload);
    var op := UploadOp(dev, "a");
    assert op.path == "a" && op.parent == "h" && op.Put? && op.content == "k";
    w7 := Do(w6, QUIET_STORY[6]);
  }

  ghost predicate IsStep(w: World, s: Step, w': World) {
    Enabled(w, s) && w' == Do(w, s)
  }

  /** A run goes on with one more step. */
  lemma RunOneMore(ws: seq<World>, steps: seq<Step>, k: nat, w: World)
    requires k < |steps| && IsRun(ws, steps[..k]) && IsStep(ws[k], steps[k], w)
    ensures IsRun(ws + [w], steps[..k + 1]) && (ws + [w])[k + 1] == w
  {
    var vs, more := ws + [w], steps[..k + 1];
    forall j | 0 <= j < |more| ensures Enabled(vs[j], more[j]) && vs[j + 1] == Do(vs[j], more[j]) {
      if j < k {
        assert steps[..k][j] == more[j];
      }
    }
  }

  /** An undisturbed run of the first `n` steps. */
  ghost predicate QuietSoFar(ws: seq<World>, steps: seq<Step>, n: nat) {
    n <= |steps| && IsRun(ws, steps[..n]) && IsUndisturbed(ws, steps[..n])
  }

  lemma QuietGoesOn(ws: seq<World>, steps: seq<Step>, n: nat, w: World)
    requires n < |steps| && QuietSoFar(ws, steps, n) && QuietStep(ws[n], steps[n], w)
    ensures QuietSoFar(ws + [w], steps, n + 1) && (ws + [w])[n + 1] == w && (ws + [w])[n] == ws[n]
  {
    RunOneMore(ws, steps, n, w);
    var vs, more := ws + [w], steps[..n + 1];
    forall k | 0 <= k < |more| ensures Undisturbed(vs[k], more[k]) {
      if k < n {
        assert steps[..n][k] == more[k];
      }
    }
  }

  lemma FirstUpload() returns (ws: seq<World>)
    ensures QuietSoFar(ws, QUIET_STORY, 3) && ws[3] == One(map["a" := ROW], Uploaded())
  {
    ws := [World(map[], map[])];
    assert QuietSoFar(ws, QUIET_STORY, 0);
    var w1, w2 := QuietBegin();
    QuietGoesOn(ws, QUIET_STORY, 0, w1);
    ws := ws + [w1];
    QuietGoesOn(ws, QUIET_STORY, 1, w2);
    ws := ws + [w2];
    var w3 := QuietSend(w2);
    QuietGoesOn(ws, QUIET_STORY, 2, w3);
    ws := ws + [w3];
  }

  lemma ThenAnEdit(before: seq<World>) returns (ws: seq<World>)
    requires QuietSoFar(before, QUIET_STORY, 3) && before[3] == One(map["a" := ROW], Uploaded())
    ensures QuietSoFar(ws, QUIET_STORY, 6) && AboutToReplace(ws[6])
  {
    var w4 := QuietCheckpoint(before[3]);
    QuietGoesOn(before, QUIET_STORY, 3, w4);
    ws := before + [w4];
    var w5, w6 := QuietAgain(w4);
    QuietGoesOn(ws, QUIET_STORY, 4, w5);
    ws := ws + [w5];
    QuietGoesOn(ws, QUIET_STORY, 5, w6);
    ws := ws + [w6];
  }

  /** The hypotheses of the safety theorem can be met by a run that does replace a live version. */
  lemma AnUpdateIsReplaced() returns (ws: seq<World>)
    ensures IsRun(ws, QUIET_STORY) && IsUndisturbed(ws, QUIET_STORY) && ReplacesLive(ws[6], QUIET_STORY[6])
  {
    ws := FirstUpload();
    ws := ThenAnEdit(ws);
    var w7 := QuietReplace(ws[6]);
    QuietGoesOn(ws, QUIET_STORY, 6, w7);
    ws := ws + [w7];
    assert QUIET_STORY[..7] == QUIET_STORY;
  }

  // ---- A run that loses an update through a tombstone -------------------------------------

  /** Both devices see the tombstone; device 1 brings the old content back, and device 0 writes over it. */
  ghost const TOMB_STORY: seq<Step> := [
    Join(0, map["a" := EDITED], Nobody), Join(1, map["a" := FILE], Nobody), Begin(0, 0), Begin(1, 0),
    Send(1, "a", 0, true), Send(0, "a", 0, true)]

  ghost const GRAVE: Manifest := map["a" := FileEntry("h", 0, 0, true, "")]

  /** A device that has one file, seen against the tombstone. */
  ghost predicate SeesGrave(dev: Device, f: DiskFile, touched: set<Path>) {
    && dev.disk == map["a" := f] && dev.base == map[] && dev.ignore == Nobody
    && dev.cycle == Some(Cycle(map["a" := Entry(f)], GRAVE, {}, {}, map[], false, {}, touched))
  }

  lemma Arrivals() returns (w1: World, w2: World)
    ensures IsStep(World(GRAVE, map[]), TOMB_STORY[0], w1) && IsStep(w1, TOMB_STORY[1], w2)
    ensures w1.files == GRAVE && w1.devices == map[0 := Device(map["a" := EDITED], map[], Nobody, None, {})]
    ensures w2.files == GRAVE && w2.devices == w1.devices[1 := Device(map["a" := FILE], map[], Nobody, None, {})]
  {
    w1 := Do(World(GRAVE, map[]), TOMB_STORY[0]);
    w2 := Do(w1, TOMB_STORY[1]);
  }

  lemma Sees(w: World, d: DeviceId, f: DiskFile) returns (w': World)
    requires w.files == GRAVE && d in w.devices && w.devices[d] == Device(map["a" := f], map[], Nobody, None, {})
    ensures IsStep(w, Begin(d, 0), w') && w'.files == GRAVE && w'.devices == w.devices[d := w'.devices[d]]
    ensures SeesGrave(w'.devices[d], f, {})
  {
    w' := Do(w, Begin(d, 0));
    var scanned := Scan(map["a" := f], Nobody);
    assert scanned == map["a" := Entry(f)];
    assert WorkingManifest(scanned, map[], 0) == scanned;
  }

  lemma BringsBack(w: World) returns (w': World)
    requires w.files == GRAVE && w.devices.Keys == {0, 1} && SeesGrave(w.devices[0], EDITED, {}) &&
             SeesGrave(w.devices[1], FILE, {})
    ensures IsStep(w, Send(1, "a", 0, true), w') && 0 in w'.devices
    ensures At(w'.files, "a") == Present("h") && SeesGrave(w'.devices[0], EDITED, {"a"})
  {
    assert PlanAt(w.devices[1], "a") == Up(Upload);
    assert UploadOp(w.devices[1], "a") == Put("a", "h", "h", 0, "a");
    w' := Do(w, Send(1, "a", 0, true));
    assert {} + {"a"} == {"a"};
  }

  lemma WritesOver(w: World) returns (w': World)
    requires At(w.files, "a") == Present("h") && 0 in w.devices && SeesGrave(w.devices[0], EDITED, {"a"})
    ensures IsStep(w, Send(0, "a", 0, true), w') && ReplacesLive(w, Send(0, "a", 0, true))
  {
    assert PlanAt(w.devices[0], "a") == Up(Upload);
    assert UploadOp(w.devices[0], "a") == Put("a", "h", "k", 0, "a");
    w' := Do(w, Send(0, "a", 0, true));
  }

  ghost predicate NeverThere(w: World) {
    !OnDiskInCycle(w, 0, "a", "h")
  }

  /** A run of the first `n` steps. */
  ghost predicate SoFar(ws: seq<World>, steps: seq<Step>, n: nat) {
    n <= |steps| && IsRun(ws, steps[..n])
  }

  ghost predicate NeverUpTo(ws: seq<World>, n: nat) {
    n <= |ws| && forall k :: 0 <= k < n ==> NeverThere(ws[k])
  }

  lemma GoesOn(ws: seq<World>, steps: seq<Step>, n: nat, w: World)
    requires n < |steps| && SoFar(ws, steps, n) && NeverUpTo(ws, n + 1) && IsStep(ws[n], steps[n], w)
    ensures SoFar(ws + [w], steps, n + 1) && NeverUpTo(ws + [w], n + 1) && (ws + [w])[n + 1] == w
    ensures NeverThere(w) ==> NeverUpTo(ws + [w], n + 2)
  {
    RunOneMore(ws, steps, n, w);
  }

  lemma BothArrive() returns (ws: seq<World>)
    ensures SoFar(ws, TOMB_STORY, 2) && NeverUpTo(ws, 3)
    ensures var dev0 := Device(map["a" := EDITED], map[], Nobody, None, {});
            var dev1 := Device(map["a" := FILE], map[], Nobody, None, {});
            ws[2] == World(GRAVE, map[0 := dev0, 1 := dev1])
  {
    var w1, w2 := Arrivals();
    ws := [World(GRAVE, map[])];
    assert SoFar(ws, TOMB_STORY, 0);
    GoesOn(ws, TOMB_STORY, 0, w1);
    ws := ws + [w1];
    GoesOn(ws, TOMB_STORY, 1, w2);
    ws := ws + [w2];
  }

  lemma BothSee(before: seq<World>) returns (ws: seq<World>)
    requires SoFar(before, TOMB_STORY, 2) && NeverUpTo(before, 3)
    requires var dev0 := Device(map["a" := EDITED], map[], Nobody, None, {});
             var dev1 := Device(map["a" := FILE], map[], Nobody, None, {});
             before[2] == World(GRAVE, map[0 := dev0, 1 := dev1])
    ensures SoFar(ws, TOMB_STORY, 4) && NeverUpTo(ws, 5)
    ensures ws[4].files == GRAVE && ws[4].devices.Keys == {0, 1}
    ensures SeesGrave(ws[4].devices[0], EDITED, {}) && SeesGrave(ws[4].devices[1], FILE, {})
  {
    ws := OneSees(before, TOMB_STORY, 2, 0, EDITED);
    ws := OneSees(ws, TOMB_STORY, 3, 1, FILE);
  }

  lemma OneSees(before: seq<World>, steps: seq<Step>, n: nat, d: DeviceId, f: DiskFile) returns (ws: seq<World>)
    requires n < |steps| && SoFar(before, steps, n) && NeverUpTo(before, n + 1) && steps[n] == Begin(d, 0)
    requires before[n].files == GRAVE && d in before[n].devices &&
             before[n].devices[d] == Device(map["a" := f], map[], Nobody, None, {})
    requires f.hash == "h" ==> d != 0
    ensures SoFar(ws, steps, n + 1) && NeverUpTo(ws, n + 2) && ws[n + 1].files == GRAVE
    ensures d in ws[n + 1].devices && ws[n + 1].devices == before[n].devices[d := ws[n + 1].devices[d]]
    ensures SeesGrave(ws[n + 1].devices[d], f, {})
  {
    var w := Sees(before[n], d, f);
    GoesOn(before, steps, n, w);
    ws := before + [w];
  }

  lemma OneWritesOver(before: seq<World>) returns (ws: seq<World>)
    requires SoFar(before, TOMB_STORY, 4) && NeverUpTo(before, 5)
    requires before[4].files == GRAVE && before[4].devices.Keys == {0, 1}
    requires SeesGrave(before[4].devices[0], EDITED, {}) && SeesGrave(before[4].devices[1], FILE, {})
    ensures SoFar(ws, TOMB_STORY, 6) && NeverUpTo(ws, 6)
    ensures ReplacesLive(ws[5], TOMB_STORY[5]) && At(ws[5].files, "a") == Present("h")
  {
    ws := ItComesBack(before);
    var w6 := WritesOver(ws[5]);
    GoesOn(ws, TOMB_STORY, 5, w6);
    ws := ws + [w6];
  }

  lemma ItComesBack(before: seq<World>) returns (ws: seq<World>)
    requires SoFar(before, TOMB_STORY, 4) && NeverUpTo(before, 5)
    requires before[4].files == GRAVE && before[4].devices.Keys == {0, 1}
    requires SeesGrave(before[4].devices[0], EDITED, {}) && SeesGrave(before[4].devices[1], FILE, {})
    ensures SoFar(ws, TOMB_STORY, 5) && NeverUpTo(ws, 6) && At(ws[5].files, "a") == Present("h")
    ensures 0 in ws[5].devices && SeesGrave(ws[5].devices[0], EDITED, {"a"})
  {
    var w5 := BringsBack(before[4]);
    GoesOn(before, TOMB_STORY, 4, w5);
    ws := before + [w5];
  }

  /** A run without any checkpoint in which device 0 replaces a version that never was on its disk. */
  lemma ATombstoneLosesAnUpdate() returns (ws: seq<World>)
    ensures IsRun(ws, TOMB_STORY) && ReplacesLive(ws[5], TOMB_STORY[5]) && At(ws[5].files, "a") == Present("h")
    ensures NeverUpTo(ws, 6)
  {
    ws := BothArrive();
    ws := BothSee(ws);
    ws := OneWritesOver(ws);
    assert TOMB_STORY[..6] == TOMB_STORY;
  }
}
