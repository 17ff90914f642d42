/**
 * `prepare_sync` and `complete_sync` against the server are runs of the protocol's steps, with other
 * devices' steps anywhere in between.
 */
module Refinement {
  import opened Types
  import opened Manifests
  import opened SyncRules
  import opened LocalState
  import opened ServerGate
  import opened Protocol
  import opened SoloCycle
  import opened Uploads
  import opened Complete

  // ---- Runs -------------------------------------------------------------------------------

  ghost predicate Chain(ws: seq<World>, steps: seq<Step>) {
    && |ws| == |steps| + 1
    && forall k {:trigger steps[k]} :: 0 <= k < |steps| ==> Enabled(ws[k], steps[k]) && ws[k + 1] == Do(ws[k], steps[k])
  }

  /** Some steps of the protocol lead from one world to the other. */
  ghost predicate LeadsTo(w: World, w': World) {
    exists ws, steps :: Chain(ws, steps) && ws[0] == w && ws[|steps|] == w'
  }

  lemma StaysPut(w: World)
    ensures LeadsTo(w, w)
  {
    assert Chain([w], []);
  }

  lemma OneStep(w: World, s: Step)
    requires Enabled(w, s)
    ensures LeadsTo(w, Do(w, s))
  {
    assert Chain([w, Do(w, s)], [s]);
  }

  lemma Onward(a: World, b: World, c: World)
    requires LeadsTo(a, b) && LeadsTo(b, c)
    ensures LeadsTo(a, c)
  {
    var ws, steps :| Chain(ws, steps) && ws[0] == a && ws[|steps|] == b;
    var vs, more :| Chain(vs, more) && vs[0] == b && vs[|more|] == c;
    Joined(ws, steps, vs, more);
    assert (ws + vs[1..])[|steps + more|] == c;
  }

  lemma Joined(ws: seq<World>, steps: seq<Step>, vs: seq<World>, more: seq<Step>)
    requires Chain(ws, steps) && Chain(vs, more) && ws[|steps|] == vs[0]
    ensures Chain(ws + vs[1..], steps + more)
  {
    var us, all := ws + vs[1..], steps + more;
    forall k | 0 <= k < |all| ensures Enabled(us[k], all[k]) && us[k + 1] == Do(us[k], all[k]) {
      if k < |steps| {
        assert all[k] == steps[k];
      } else {
        assert all[k] == more[k - |steps|];
      }
    }
  }

  // ---- The ledger of a cycle --------------------------------------------------------------

  /** What a round changes: the disk and the cycle's bookkeeping. */
  datatype Ledger = Ledger(disk: Disk, settled: set<Path>, held: set<Path>, copies: map<Path, ContentHash>, fatal: bool)

  ghost function LedgerOf(w: World, d: DeviceId): Ledger
    requires InCycle(w, d)
  {
    var c := w.devices[d].cycle.value;
    Ledger(w.devices[d].disk, c.settled, c.held, c.copies, c.fatal)
  }

  /** Device `d` is in the cycle that `dev0` is in, and its ledger is this one. */
  ghost predicate Shows(w: World, d: DeviceId, dev0: Device, l: Ledger)
    requires dev0.cycle.Some?
  {
    InCycle(w, d) && SamePlan(dev0, w.devices[d]) && LedgerOf(w, d) == l
  }

  // ---- Other devices in between -----------------------------------------------------------

  /** One move of a history: the device's own next deed, or a step of another device. */
  datatype Move = Own | Foreign(step: Step)

  function OwnCount(moves: seq<Move>, k: nat): nat
    requires k <= |moves|
  {
    if k == 0 then 0 else OwnCount(moves, k - 1) + if moves[k - 1].Own? then 1 else 0
  }

  /** What one deed does: from one world to the next. */
  type Deed = (nat, World, World) -> bool
  type Invariant = (nat, World) -> bool

  /** `n` deeds in order, with steps of other devices anywhere before, between and after. */
  ghost predicate IsHistory(d: DeviceId, n: nat, deed: Deed, moves: seq<Move>, ws: seq<World>) {
    && |ws| == |moves| + 1 && OwnCount(moves, |moves|) == n
    && forall k {:trigger moves[k]} :: 0 <= k < |moves| ==>
         IsMove(d, deed, OwnCount(moves, k), moves[k], ws[k], ws[k + 1])
  }

  ghost predicate IsMove(d: DeviceId, deed: Deed, i: nat, move: Move, w: World, w': World) {
    match move
    case Own => deed(i, w, w')
    case Foreign(s) => s.d != d && Enabled(w, s) && w' == Do(w, s)
  }

  /** The invariant is kept by the device's own deeds, which are runs, and by other devices. */
  ghost predicate IsKept(d: DeviceId, n: nat, deed: Deed, inv: Invariant) {
    && (forall i: nat, w, w' :: i < n && inv(i, w) && deed(i, w, w') ==> inv(i + 1, w') && LeadsTo(w, w'))
    && (forall i: nat, w, s: Step :: inv(i, w) && s.d != d && Enabled(w, s) ==> inv(i, Do(w, s)))
  }

  lemma {:induction false} CountGrows(moves: seq<Move>, j: nat, k: nat)
    requires j <= k <= |moves|
    ensures OwnCount(moves, j) <= OwnCount(moves, k)
  {
    if j < k {
      CountGrows(moves, j, k - 1);
    }
  }

  /** One move of a history keeps the invariant and is a run. */
  ghost predicate KeptAt(inv: Invariant, moves: seq<Move>, ws: seq<World>, k: nat)
    requires k < |moves| < |ws|
  {
    inv(OwnCount(moves, k), ws[k]) ==>
      inv(OwnCount(moves, k + 1), ws[k + 1]) && LeadsTo(ws[k], ws[k + 1])
  }

  lemma {:induction false} HistoryUpTo(inv: Invariant, moves: seq<Move>, ws: seq<World>, k: nat)
    requires |ws| == |moves| + 1 && forall i :: 0 <= i < |moves| ==> KeptAt(inv, moves, ws, i)
    requires inv(0, ws[0]) && k <= |moves|
    ensures inv(OwnCount(moves, k), ws[k]) && LeadsTo(ws[0], ws[k])
  {
    if k == 0 {
      StaysPut(ws[0]);
    } else {
      HistoryUpTo(inv, moves, ws, k - 1);
      assert KeptAt(inv, moves, ws, k - 1);
      Onward(ws[0], ws[k - 1], ws[k]);
    }
  }

  lemma MoveKeeps(d: DeviceId, n: nat, deed: Deed, inv: Invariant, i: nat, move: Move, w: World, w': World)
    requires IsKept(d, n, deed, inv) && IsMove(d, deed, i, move, w, w') && inv(i, w) && (move.Own? ==> i < n)
    ensures LeadsTo(w, w') && inv(i + if move.Own? then 1 else 0, w')
  {
    if move.Foreign? {
      OneStep(w, move.step);
    }
  }

  lemma NextMove(d: DeviceId, n: nat, deed: Deed, inv: Invariant, moves: seq<Move>, ws: seq<World>, k: nat)
    requires IsHistory(d, n, deed, moves, ws) && IsKept(d, n, deed, inv) && k < |moves|
    ensures KeptAt(inv, moves, ws, k)
  {
    var i, move := OwnCount(moves, k), moves[k];
    CountGrows(moves, k + 1, |moves|);
    if inv(i, ws[k]) {
      MoveKeeps(d, n, deed, inv, i, move, ws[k], ws[k + 1]);
    }
  }

  /** A whole history is a run, and the invariant holds when the last deed is done. */
  lemma HistoryIsARun(d: DeviceId, n: nat, deed: Deed, inv: Invariant, moves: seq<Move>, ws: seq<World>)
    requires IsHistory(d, n, deed, moves, ws) && IsKept(d, n, deed, inv) && inv(0, ws[0])
    ensures inv(n, ws[|moves|]) && LeadsTo(ws[0], ws[|moves|])
  {
    forall k | 0 <= k < |moves| ensures KeptAt(inv, moves, ws, k) {
      NextMove(d, n, deed, inv, moves, ws, k);
    }
    HistoryUpTo(inv, moves, ws, |moves|);
  }

  /** Other devices do not touch this device's ledger. */
  lemma ForeignKeepsLedger(w: World, d: DeviceId, s: Step)
    requires InCycle(w, d) && s.d != d && Enabled(w, s)
    ensures InCycle(Do(w, s), d) && SamePlan(w.devices[d], Do(w, s).devices[d]) &&
            LedgerOf(Do(w, s), d) == LedgerOf(w, d)
  {
    if s.Send? {
      ForeignExecute(w, d, s.d, UploadOp(w.devices[s.d], s.p), s.now, s.answered);
    } else if s.SendKept? {
      ForeignExecute(w, d, s.d, KeptOp(w.devices[s.d], s.p), s.now, s.answered);
    } else if s.SendCopy? {
      ForeignExecute(w, d, s.d, CopyOp(w.devices[s.d], s.p), s.now, s.answered);
    } else {
      ForeignElsewhere(w, d, s);
    }
  }

  lemma ForeignExecute(w: World, d: DeviceId, e: DeviceId, op: Op, now: nat, answered: bool)
    requires InCycle(w, d) && InCycle(w, e) && e != d
    ensures var w' := Execute(w, e, op, now, answered);
            InCycle(w', d) && SamePlan(w.devices[d], w'.devices[d]) && LedgerOf(w', d) == LedgerOf(w, d)
  {
  }

  lemma ForeignElsewhere(w: World, d: DeviceId, s: Step)
    requires InCycle(w, d) && s.d != d && Enabled(w, s) && !s.Send? && !s.SendKept? && !s.SendCopy?
    ensures d in Do(w, s).devices && Do(w, s).devices[d] == w.devices[d]
  {
  }

  // ---- Failures of the preparation --------------------------------------------------------

  ghost function HeldBack(w: World, d: DeviceId, p: Path, fatal: bool): World
    requires InCycle(w, d)
  {
    Do(w, HoldBack(d, p, fatal))
  }

  function Failing(l: Ledger, f: SyncFailure): Ledger {
    l.(held := l.held + {f.path}, fatal := l.fatal || f.fatal)
  }

  lemma FailingIsAStep(w: World, d: DeviceId, dev0: Device, l: Ledger, f: SyncFailure)
    requires dev0.cycle.Some? && Shows(w, d, dev0, l)
    ensures LeadsTo(w, HeldBack(w, d, f.path, f.fatal)) &&
            Shows(HeldBack(w, d, f.path, f.fatal), d, dev0, Failing(l, f))
  {
    OneStep(w, HoldBack(d, f.path, f.fatal));
  }

  function FailingAll(l: Ledger, fs: seq<SyncFailure>, n: nat): Ledger
    requires n <= |fs|
  {
    if n == 0 then l else Failing(FailingAll(l, fs, n - 1), fs[n - 1])
  }

  ghost function FailureDeed(d: DeviceId, fs: seq<SyncFailure>): Deed {
    (i: nat, w: World, w': World) => i < |fs| && InCycle(w, d) && w' == HeldBack(w, d, fs[i].path, fs[i].fatal)
  }

  ghost function FailureInv(d: DeviceId, dev0: Device, l: Ledger, fs: seq<SyncFailure>): Invariant
    requires dev0.cycle.Some?
  {
    (i: nat, w: World) => i <= |fs| && Shows(w, d, dev0, FailingAll(l, fs, i))
  }

  lemma FailuresKeep(d: DeviceId, dev0: Device, l: Ledger, fs: seq<SyncFailure>)
    requires dev0.cycle.Some?
    ensures IsKept(d, |fs|, FailureDeed(d, fs), FailureInv(d, dev0, l, fs))
  {
    var deed, inv := FailureDeed(d, fs), FailureInv(d, dev0, l, fs);
    forall i: nat, w, w' | i < |fs| && inv(i, w) && deed(i, w, w') ensures inv(i + 1, w') && LeadsTo(w, w') {
      FailingIsAStep(w, d, dev0, FailingAll(l, fs, i), fs[i]);
      assert FailingAll(l, fs, i + 1) == Failing(FailingAll(l, fs, i), fs[i]);
    }
    forall i: nat, w, s: Step | inv(i, w) && s.d != d && Enabled(w, s) ensures inv(i, Do(w, s)) {
      ForeignKeepsLedger(w, d, s);
    }
  }

  lemma FailuresRun(d: DeviceId, dev0: Device, l: Ledger, fs: seq<SyncFailure>, moves: seq<Move>, ws: seq<World>)
    requires dev0.cycle.Some? && IsHistory(d, |fs|, FailureDeed(d, fs), moves, ws) && Shows(ws[0], d, dev0, l)
    ensures LeadsTo(ws[0], ws[|moves|]) && Shows(ws[|moves|], d, dev0, FailingAll(l, fs, |fs|))
  {
    FailuresKeep(d, dev0, l, fs);
    HistoryIsARun(d, |fs|, FailureDeed(d, fs), FailureInv(d, dev0, l, fs), moves, ws);
  }

  lemma {:induction false} FailingAllIs(l: Ledger, fs: seq<SyncFailure>, n: nat)
    requires n <= |fs|
    ensures FailingAll(l, fs, n) ==
            l.(held := l.held + (set f | f in fs[..n] :: f.path), fatal := l.fatal || AnyFatal(fs[..n]))
  {
    if n > 0 {
      FailingAllIs(l, fs, n - 1);
      var front, last := fs[..n - 1], fs[n - 1];
      assert fs[..n] == front + [last];
      assert (set f | f in fs[..n] :: f.path) == (set f | f in front :: f.path) + {last.path};
      FatalOfBoth(front, last);
    }
  }

  lemma FatalOfBoth(front: seq<SyncFailure>, last: SyncFailure)
    ensures AnyFatal(front + [last]) <==> AnyFatal(front) || last.fatal
  {
    assert last in front + [last];
    assert forall f :: f in front ==> f in front + [last];
  }

  // ---- Resolutions ------------------------------------------------------------------------

  /**
   * A conflict of the cycle's own plan that can be resolved as answered; nothing but a download is planned
   * where its copy goes.
   */
  ghost predicate Resolvable(dev0: Device, choices: map<Path, Choice>, fetch: Path -> Option<DiskFile>, c: Conflict)
    requires dev0.cycle.Some?
  {
    && PlanAt(dev0, c.path) == Clash && c == ConflictAt(dev0, c.path) && CanApply(choices, fetch, c)
    && (ChoiceFor(choices, c) == KeepBoth ==> HasRoom(dev0, ConflictCopyPath(c.path)))
  }

  /** Nothing but a download may be planned where a copy goes. */
  ghost predicate HasRoom(dev0: Device, q: Path)
    requires dev0.cycle.Some?
  {
    PlanAt(dev0, q) == Nothing || PlanAt(dev0, q).Down?
  }

  function Resolving(l: Ledger, choices: map<Path, Choice>, fetch: Path -> Option<DiskFile>, c: Conflict): Ledger {
    var q := ConflictCopyPath(c.path);
    match ChoiceFor(choices, c)
    case KeepRemote => l.(disk := DiskFor(choices, fetch, c, l.disk), settled := l.settled + {c.path})
    case KeepBoth =>
      if fetch(c.path).None? then l
      else
        l.(disk := DiskFor(choices, fetch, c, l.disk), copies := l.copies[q := fetch(c.path).value.hash],
           settled := l.settled - {q})
    case Defer => l.(held := l.held + {c.path})
    case KeepLocal => l
  }

  /** What resolving one conflict does to the device. */
  ghost function Resolved(w: World, d: DeviceId, choices: map<Path, Choice>, fetch: Path -> Option<DiskFile>,
                          x: Conflict): World
    requires InCycle(w, d)
  {
    var dev, q := w.devices[d], ConflictCopyPath(x.path);
    var c := dev.cycle.value;
    match ChoiceFor(choices, x)
    case KeepRemote =>
      PutDevice(w, d, Settle(WriteDisk(dev, x.path, if x.remote.deleted then None else fetch(x.path)), x.path))
    case KeepBoth =>
      if fetch(x.path).None? then w
      else
        PutDevice(w, d, WriteDisk(dev, q, fetch(x.path)).(
          cycle := Some(c.(copies := c.copies[q := fetch(x.path).value.hash], settled := c.settled - {q}))))
    case Defer => HeldBack(w, d, x.path, false)
    case KeepLocal => w
  }

  ghost predicate IsServed(w: World, choices: map<Path, Choice>, fetch: Path -> Option<DiskFile>, c: Conflict) {
    NeedsFetch(choices, c) && fetch(c.path).Some? ==> Serves(w.files, c.path, fetch(c.path).value)
  }

  ghost function ResolutionDeed(d: DeviceId, choices: map<Path, Choice>, fetch: Path -> Option<DiskFile>,
                                cs: seq<Conflict>): Deed {
    (i: nat, w: World, w': World) =>
      i < |cs| && InCycle(w, d) && IsServed(w, choices, fetch, cs[i]) && w' == Resolved(w, d, choices, fetch, cs[i])
  }

  lemma SidesOf(dev0: Device, p: Path)
    requires dev0.cycle.Some? && PlanAt(dev0, p) == Clash
    ensures var c := ConflictAt(dev0, p);
            && (c.local.deleted <==> At(dev0.cycle.value.working, p).Gone?)
            && (c.remote.deleted <==> At(dev0.cycle.value.remote, p).Gone?)
            && c.path == p
  {
  }

  ghost function ResolvingStep(d: DeviceId, choices: map<Path, Choice>, fetch: Path -> Option<DiskFile>,
                               c: Conflict): Step {
    match ChoiceFor(choices, c)
    case KeepRemote => TakeRemote(d, c.path, if c.remote.deleted then None else fetch(c.path))
    case KeepBoth => CopyRemote(d, c.path, if fetch(c.path).Some? then fetch(c.path).value else DiskFile("0", 0, 0))
    case _ => HoldBack(d, c.path, false)
  }

  lemma ResolvingIsEnabled(w: World, d: DeviceId, dev0: Device, l: Ledger, choices: map<Path, Choice>,
                           fetch: Path -> Option<DiskFile>, c: Conflict)
    requires dev0.cycle.Some? && Resolvable(dev0, choices, fetch, c) && c.path !in l.settled && c.path !in l.held
    requires Shows(w, d, dev0, l) && IsServed(w, choices, fetch, c) && ChoiceFor(choices, c) != KeepLocal
    ensures Enabled(w, ResolvingStep(d, choices, fetch, c))
  {
    SidesOf(dev0, c.path);
    SamePlanAt(dev0, w.devices[d], map[], c.path);
  }

  lemma ResolvingDoes(w: World, d: DeviceId, choices: map<Path, Choice>, fetch: Path -> Option<DiskFile>, c: Conflict)
    requires CanApply(choices, fetch, c) && InCycle(w, d) && ChoiceFor(choices, c) != KeepLocal
    requires Enabled(w, ResolvingStep(d, choices, fetch, c))
    ensures Do(w, ResolvingStep(d, choices, fetch, c)) == Resolved(w, d, choices, fetch, c)
  {
  }

  lemma ResolvedShows(w: World, d: DeviceId, dev0: Device, l: Ledger, choices: map<Path, Choice>,
                      fetch: Path -> Option<DiskFile>, c: Conflict)
    requires dev0.cycle.Some? && CanApply(choices, fetch, c) && Shows(w, d, dev0, l)
    ensures Shows(Resolved(w, d, choices, fetch, c), d, dev0, Resolving(l, choices, fetch, c))
  {
    if ChoiceFor(choices, c) == KeepBoth {
      BothShows(w, d, dev0, l, choices, fetch, c);
    } else {
      OneSideShows(w, d, dev0, l, choices, fetch, c);
    }
  }

  lemma BothShows(w: World, d: DeviceId, dev0: Device, l: Ledger, choices: map<Path, Choice>,
                  fetch: Path -> Option<DiskFile>, c: Conflict)
    requires dev0.cycle.Some? && CanApply(choices, fetch, c) && Shows(w, d, dev0, l)
    requires ChoiceFor(choices, c) == KeepBoth
    ensures Shows(Resolved(w, d, choices, fetch, c), d, dev0, Resolving(l, choices, fetch, c))
  {
  }

  lemma OneSideShows(w: World, d: DeviceId, dev0: Device, l: Ledger, choices: map<Path, Choice>,
                     fetch: Path -> Option<DiskFile>, c: Conflict)
    requires dev0.cycle.Some? && CanApply(choices, fetch, c) && Shows(w, d, dev0, l)
    requires ChoiceFor(choices, c) != KeepBoth
    ensures Shows(Resolved(w, d, choices, fetch, c), d, dev0, Resolving(l, choices, fetch, c))
  {
  }

  lemma ResolvingIsAStep(w: World, d: DeviceId, dev0: Device, l: Ledger, choices: map<Path, Choice>,
                         fetch: Path -> Option<DiskFile>, c: Conflict)
    requires dev0.cycle.Some? && Resolvable(dev0, choices, fetch, c) && c.path !in l.settled && c.path !in l.held
    requires Shows(w, d, dev0, l) && IsServed(w, choices, fetch, c)
    ensures LeadsTo(w, Resolved(w, d, choices, fetch, c))
    ensures Shows(Resolved(w, d, choices, fetch, c), d, dev0, Resolving(l, choices, fetch, c))
  {
    ResolvedShows(w, d, dev0, l, choices, fetch, c);
    if ChoiceFor(choices, c) == KeepLocal {
      StaysPut(w);
    } else {
      ResolvingIsEnabled(w, d, dev0, l, choices, fetch, c);
      ResolvingDoes(w, d, choices, fetch, c);
      OneStep(w, ResolvingStep(d, choices, fetch, c));
    }
  }

  function ResolvingAll(l: Ledger, choices: map<Path, Choice>, fetch: Path -> Option<DiskFile>,
                        cs: seq<Conflict>): Ledger {
    if cs == [] then l else Resolving(ResolvingAll(l, choices, fetch, cs[..|cs| - 1]), choices, fetch, cs[|cs| - 1])
  }

  ghost predicate AllResolvable(dev0: Device, choices: map<Path, Choice>, fetch: Path -> Option<DiskFile>,
                                cs: seq<Conflict>)
    requires dev0.cycle.Some?
  {
    && (forall c :: c in cs ==> Resolvable(dev0, choices, fetch, c))
    && (forall i, j :: 0 <= i < j < |cs| ==> cs[i].path != cs[j].path)
  }

  ghost predicate ChosenAt(choices: map<Path, Choice>, cs: seq<Conflict>, choice: Choice, p: Path) {
    exists c :: c in cs && ChoiceFor(choices, c) == choice && c.path == p
  }

  ghost predicate CopiedAt(choices: map<Path, Choice>, cs: seq<Conflict>, q: Path) {
    exists c :: c in cs && ChoiceFor(choices, c) == KeepBoth && ConflictCopyPath(c.path) == q
  }

  /** The ledger after the resolutions, path by path. */
  ghost predicate ResolvedTo(l0: Ledger, l: Ledger, choices: map<Path, Choice>, fetch: Path -> Option<DiskFile>,
                             cs: seq<Conflict>) {
    && l.fatal == l0.fatal && l.disk == DiskAfter(choices, fetch, cs, l0.disk)
    && (forall p :: p in l.settled <==>
          (p in l0.settled && !CopiedAt(choices, cs, p)) || ChosenAt(choices, cs, KeepRemote, p))
    && (forall p :: p in l.held <==> p in l0.held || ChosenAt(choices, cs, Defer, p))
    && (forall q :: q in l.copies <==> q in l0.copies || CopiedAt(choices, cs, q))
  }

  /** At the start only downloads are settled or held back, and no copy is written. */
  ghost predicate FreshLedger(dev0: Device, l: Ledger)
    requires dev0.cycle.Some?
  {
    l.copies == map[] && forall p :: p in l.settled || p in l.held ==> PlanAt(dev0, p).Down?
  }

  lemma ChosenAtOneMore(choices: map<Path, Choice>, cs: seq<Conflict>, last: Conflict, choice: Choice, p: Path)
    ensures ChosenAt(choices, cs + [last], choice, p) <==>
              ChosenAt(choices, cs, choice, p) || (ChoiceFor(choices, last) == choice && last.path == p)
    ensures CopiedAt(choices, cs + [last], p) <==>
              CopiedAt(choices, cs, p) || (ChoiceFor(choices, last) == KeepBoth && ConflictCopyPath(last.path) == p)
  {
    assert last in cs + [last] && forall c :: c in cs ==> c in cs + [last];
  }

  lemma FrontResolvable(dev0: Device, choices: map<Path, Choice>, fetch: Path -> Option<DiskFile>, cs: seq<Conflict>)
    requires dev0.cycle.Some? && AllResolvable(dev0, choices, fetch, cs) && cs != []
    ensures cs == cs[..|cs| - 1] + [cs[|cs| - 1]] && AllResolvable(dev0, choices, fetch, cs[..|cs| - 1])
    ensures Resolvable(dev0, choices, fetch, cs[|cs| - 1])
  {
    assert cs[|cs| - 1] in cs;
    assert forall c :: c in cs[..|cs| - 1] ==> c in cs;
  }

  lemma {:induction false} ResolutionsLedger(dev0: Device, l0: Ledger, choices: map<Path, Choice>,
                                             fetch: Path -> Option<DiskFile>, cs: seq<Conflict>)
    requires dev0.cycle.Some? && AllResolvable(dev0, choices, fetch, cs) && FreshLedger(dev0, l0)
    ensures ResolvedTo(l0, ResolvingAll(l0, choices, fetch, cs), choices, fetch, cs)
  {
    if cs != [] {
      FrontResolvable(dev0, choices, fetch, cs);
      ResolutionsLedger(dev0, l0, choices, fetch, cs[..|cs| - 1]);
      ResolvedOneMore(dev0, l0, ResolvingAll(l0, choices, fetch, cs[..|cs| - 1]), choices, fetch, cs[..|cs| - 1],
                      cs[|cs| - 1]);
    }
  }

  lemma NotYetResolved(dev0: Device, l0: Ledger, l: Ledger, choices: map<Path, Choice>,
                       fetch: Path -> Option<DiskFile>, front: seq<Conflict>, last: Conflict)
    requires dev0.cycle.Some? && AllResolvable(dev0, choices, fetch, front + [last]) && FreshLedger(dev0, l0)
    requires ResolvedTo(l0, l, choices, fetch, front)
    ensures last.path !in l.settled && last.path !in l.held
  {
    var cs := front + [last];
    assert cs[|front|] == last && last in cs;
    forall c | c in front ensures c.path != last.path {
      var i :| 0 <= i < |front| && front[i] == c;
      assert cs[i] == c;
    }
    assert PlanAt(dev0, last.path) == Clash;
  }

  /** One resolution, path by path. */
  lemma ResolvingAt(l: Ledger, choices: map<Path, Choice>, fetch: Path -> Option<DiskFile>, c: Conflict, p: Path)
    requires CanApply(choices, fetch, c)
    ensures var l', choice, q := Resolving(l, choices, fetch, c), ChoiceFor(choices, c), ConflictCopyPath(c.path);
            && (p in l'.settled <==>
                  (p in l.settled && !(choice == KeepBoth && p == q)) || (choice == KeepRemote && p == c.path))
            && (p in l'.held <==> p in l.held || (choice == Defer && p == c.path))
            && (p in l'.copies <==> p in l.copies || (choice == KeepBoth && p == q))
            && l'.disk == DiskFor(choices, fetch, c, l.disk) && l'.fatal == l.fatal
  {
  }

  lemma ResolvedOneMore(dev0: Device, l0: Ledger, l: Ledger, choices: map<Path, Choice>,
                        fetch: Path -> Option<DiskFile>, front: seq<Conflict>, last: Conflict)
    requires dev0.cycle.Some? && AllResolvable(dev0, choices, fetch, front + [last]) && FreshLedger(dev0, l0)
    requires ResolvedTo(l0, l, choices, fetch, front)
    ensures ResolvedTo(l0, Resolving(l, choices, fetch, last), choices, fetch, front + [last])
  {
    var cs, l' := front + [last], Resolving(l, choices, fetch, last);
    assert cs[..|front|] == front && cs[|front|] == last && last in cs;
    ResolvingAt(l, choices, fetch, last, "");
    forall p
      ensures p in l'.settled <==>
                (p in l0.settled && !CopiedAt(choices, cs, p)) || ChosenAt(choices, cs, KeepRemote, p)
      ensures p in l'.held <==> p in l0.held || ChosenAt(choices, cs, Defer, p)
      ensures p in l'.copies <==> p in l0.copies || CopiedAt(choices, cs, p)
    {
      ResolvedOneMoreAt(dev0, l0, l, choices, fetch, front, last, p);
    }
  }

  lemma ResolvedOneMoreAt(dev0: Device, l0: Ledger, l: Ledger, choices: map<Path, Choice>,
                          fetch: Path -> Option<DiskFile>, front: seq<Conflict>, last: Conflict, p: Path)
    requires dev0.cycle.Some? && AllResolvable(dev0, choices, fetch, front + [last]) && FreshLedger(dev0, l0)
    requires ResolvedTo(l0, l, choices, fetch, front)
    ensures var cs, l' := front + [last], Resolving(l, choices, fetch, last);
            && (p in l'.settled <==>
                  (p in l0.settled && !CopiedAt(choices, cs, p)) || ChosenAt(choices, cs, KeepRemote, p))
            && (p in l'.held <==> p in l0.held || ChosenAt(choices, cs, Defer, p))
            && (p in l'.copies <==> p in l0.copies || CopiedAt(choices, cs, p))
  {
    var cs := front + [last];
    assert last in cs && forall c :: c in front ==> c in cs;
    assert Resolvable(dev0, choices, fetch, last);
    ResolvingAt(l, choices, fetch, last, p);
    ChosenAtOneMore(choices, front, last, KeepRemote, p);
    ChosenAtOneMore(choices, front, last, Defer, p);
    CopyIsNotChosen(dev0, choices, fetch, cs, p);
  }

  /** A copy path is no conflict's own. */
  lemma CopyIsNotChosen(dev0: Device, choices: map<Path, Choice>, fetch: Path -> Option<DiskFile>, cs: seq<Conflict>,
                        p: Path)
    requires dev0.cycle.Some? && forall c :: c in cs ==> Resolvable(dev0, choices, fetch, c)
    ensures CopiedAt(choices, cs, p) ==> HasRoom(dev0, p) && forall c :: c in cs ==> c.path != p
  {
  }

  /** A copy, once written, stays as it is through the other resolutions. */
  lemma {:induction false} CopyStays(dev0: Device, l0: Ledger, choices: map<Path, Choice>,
                                     fetch: Path -> Option<DiskFile>, cs: seq<Conflict>, c: Conflict)
    requires dev0.cycle.Some? && AllResolvable(dev0, choices, fetch, cs) && c in cs && ChoiceFor(choices, c) == KeepBoth
    ensures fetch(c.path).Some?
    ensures var l, q, f := ResolvingAll(l0, choices, fetch, cs), ConflictCopyPath(c.path), fetch(c.path).value;
            Get(l.copies, q) == Some(f.hash) && Get(l.disk, q) == Some(f)
  {
    var front, last := cs[..|cs| - 1], cs[|cs| - 1];
    FrontResolvable(dev0, choices, fetch, cs);
    var l := ResolvingAll(l0, choices, fetch, front);
    if last == c {
      WritesItsCopy(l, choices, fetch, c);
    } else {
      CopyStays(dev0, l0, choices, fetch, front, c);
      OthersLeaveCopy(dev0, choices, fetch, front, last, c);
      LeavesCopy(l, choices, fetch, last, ConflictCopyPath(c.path));
    }
  }

  lemma OthersLeaveCopy(dev0: Device, choices: map<Path, Choice>, fetch: Path -> Option<DiskFile>,
                        front: seq<Conflict>, last: Conflict, c: Conflict)
    requires dev0.cycle.Some? && AllResolvable(dev0, choices, fetch, front + [last]) && c in front &&
             ChoiceFor(choices, c) == KeepBoth
    ensures last.path != ConflictCopyPath(c.path) && ConflictCopyPath(last.path) != ConflictCopyPath(c.path)
  {
    var cs := front + [last];
    var k :| 0 <= k < |front| && front[k] == c;
    assert cs[k] == c && cs[|front|] == last && c in cs && last in cs;
    assert Resolvable(dev0, choices, fetch, c) && Resolvable(dev0, choices, fetch, last);
    CopyPathInjective(c.path, last.path);
  }

  lemma WritesItsCopy(l: Ledger, choices: map<Path, Choice>, fetch: Path -> Option<DiskFile>, c: Conflict)
    requires CanApply(choices, fetch, c) && ChoiceFor(choices, c) == KeepBoth
    ensures fetch(c.path).Some?
    ensures var l', q, f := Resolving(l, choices, fetch, c), ConflictCopyPath(c.path), fetch(c.path).value;
            Get(l'.copies, q) == Some(f.hash) && Get(l'.disk, q) == Some(f)
  {
  }

  lemma LeavesCopy(l: Ledger, choices: map<Path, Choice>, fetch: Path -> Option<DiskFile>, c: Conflict, q: Path)
    requires CanApply(choices, fetch, c) && c.path != q &&
             (ChoiceFor(choices, c) == KeepBoth ==> ConflictCopyPath(c.path) != q)
    ensures var l' := Resolving(l, choices, fetch, c);
            Get(l'.copies, q) == Get(l.copies, q) && Get(l'.disk, q) == Get(l.disk, q)
  {
  }

  ghost function ResolutionInv(d: DeviceId, dev0: Device, l0: Ledger, choices: map<Path, Choice>,
                               fetch: Path -> Option<DiskFile>, cs: seq<Conflict>): Invariant
    requires dev0.cycle.Some?
  {
    (i: nat, w: World) => i <= |cs| && Shows(w, d, dev0, ResolvingAll(l0, choices, fetch, cs[..i]))
  }

  lemma ResolutionsKeep(d: DeviceId, dev0: Device, l0: Ledger, choices: map<Path, Choice>,
                        fetch: Path -> Option<DiskFile>, cs: seq<Conflict>)
    requires dev0.cycle.Some? && AllResolvable(dev0, choices, fetch, cs) && FreshLedger(dev0, l0)
    ensures IsKept(d, |cs|, ResolutionDeed(d, choices, fetch, cs), ResolutionInv(d, dev0, l0, choices, fetch, cs))
  {
    var deed, inv := ResolutionDeed(d, choices, fetch, cs), ResolutionInv(d, dev0, l0, choices, fetch, cs);
    forall i: nat, w, w' | i < |cs| && inv(i, w) && deed(i, w, w') ensures inv(i + 1, w') && LeadsTo(w, w') {
      NextResolution(w, d, dev0, l0, choices, fetch, cs, i);
    }
    forall i: nat, w, s: Step | inv(i, w) && s.d != d && Enabled(w, s) ensures inv(i, Do(w, s)) {
      ForeignKeepsLedger(w, d, s);
    }
  }

  lemma ResolutionsRun(d: DeviceId, dev0: Device, l0: Ledger, choices: map<Path, Choice>,
                       fetch: Path -> Option<DiskFile>, cs: seq<Conflict>, moves: seq<Move>, ws: seq<World>)
    requires dev0.cycle.Some? && AllResolvable(dev0, choices, fetch, cs) && FreshLedger(dev0, l0)
    requires IsHistory(d, |cs|, ResolutionDeed(d, choices, fetch, cs), moves, ws) && Shows(ws[0], d, dev0, l0)
    ensures LeadsTo(ws[0], ws[|moves|]) && Shows(ws[|moves|], d, dev0, ResolvingAll(l0, choices, fetch, cs))
  {
    ResolutionsKeep(d, dev0, l0, choices, fetch, cs);
    assert cs[..0] == [] && cs[..|cs|] == cs;
    HistoryIsARun(d, |cs|, ResolutionDeed(d, choices, fetch, cs), ResolutionInv(d, dev0, l0, choices, fetch, cs),
                  moves, ws);
  }

  lemma NextResolution(w: World, d: DeviceId, dev0: Device, l0: Ledger, choices: map<Path, Choice>,
                       fetch: Path -> Option<DiskFile>, cs: seq<Conflict>, i: nat)
    requires dev0.cycle.Some? && AllResolvable(dev0, choices, fetch, cs) && FreshLedger(dev0, l0) && i < |cs|
    requires Shows(w, d, dev0, ResolvingAll(l0, choices, fetch, cs[..i])) && IsServed(w, choices, fetch, cs[i])
    ensures var w' := Resolved(w, d, choices, fetch, cs[i]);
            LeadsTo(w, w') && Shows(w', d, dev0, ResolvingAll(l0, choices, fetch, cs[..i + 1]))
  {
    var front, next := cs[..i], cs[..i + 1];
    assert next[..|next| - 1] == front && next[|next| - 1] == cs[i] && next == front + [cs[i]];
    assert cs[i] in cs && forall c :: c in next ==> c in cs;
    assert AllResolvable(dev0, choices, fetch, next) && AllResolvable(dev0, choices, fetch, front);
    var l := ResolvingAll(l0, choices, fetch, front);
    ResolutionsLedger(dev0, l0, choices, fetch, front);
    NotYetResolved(dev0, l0, l, choices, fetch, front, cs[i]);
    ResolvingIsAStep(w, d, dev0, l, choices, fetch, cs[i]);
  }

  // ---- Uploads ----------------------------------------------------------------------------

  /** One upload and its fate, as the bookkeeping sees it. */
  function Sending(l: Ledger, a: SyncAction, fate: Fate): Ledger {
    match fate
    case Untouched => l
    case Succeeded => l.(settled := l.settled + {a.path})
    case Late(_) => l.(held := l.held + {a.path})
    case Failed(fatal) => Failing(l, FailureOf(a, fatal))
  }

  /**
   * What an upload with this fate does; `executed` tells whether the server carried out a request whose answer
   * was lost.
   */
  ghost function Sent(w: World, d: DeviceId, a: SyncAction, fate: Fate, executed: bool, now: nat): World
    requires InCycle(w, d) && a.local.Some?
  {
    match fate
    case Untouched => w
    case Succeeded => Execute(w, d, OpOf(a), now, true)
    case Late(_) => Execute(w, d, OpOf(a), now, true)
    case Failed(fatal) => HeldBack(if executed then Execute(w, d, OpOf(a), now, false) else w, d, a.path, fatal)
  }

  /** The fate is what the server, with these rows, answers. */
  ghost predicate Answers(files: Manifest, a: SyncAction, fate: Fate)
    requires a.local.Some?
  {
    && (fate.Succeeded? ==> ReplyTo(files, OpOf(a)) == Ok)
    && (fate.Late? ==> ReplyTo(files, OpOf(a)) == Stale(fate.current))
  }

  ghost function UploadDeed(d: DeviceId, uploads: seq<SyncAction>, fates: seq<Fate>, executed: nat -> bool,
                            clock: nat -> nat): Deed
    requires |uploads| == |fates|
  {
    (i: nat, w: World, w': World) =>
      i < |uploads| && InCycle(w, d) && uploads[i].local.Some? && Answers(w.files, uploads[i], fates[i]) &&
      w' == Sent(w, d, uploads[i], fates[i], executed(i), clock(i))
  }

  /** The upload is one the cycle may send: planned, kept in a conflict, or a copy it wrote. */
  ghost predicate MaySend(dev0: Device, l: Ledger, a: SyncAction)
    requires dev0.cycle.Some?
  {
    && a.local.Some? && a.path !in l.settled && (a.path in l.held ==> HasRoom(dev0, a.path))
    && (|| (PlanAt(dev0, a.path).Up? && OpOf(a) == UploadOp(dev0, a.path))
        || (PlanAt(dev0, a.path) == Clash && OpOf(a) == KeptOp(dev0, a.path))
        || (HasRoom(dev0, a.path) && IsCopyOf(l, a)))
  }

  ghost predicate IsCopyOf(l: Ledger, a: SyncAction)
    requires a.local.Some?
  {
    && a.path in l.copies
    && OpOf(a) == Put(a.path, "", l.copies[a.path], if a.path in l.disk then l.disk[a.path].size else 0, a.path)
  }

  ghost function SendingStep(d: DeviceId, dev0: Device, a: SyncAction, now: nat, answered: bool): Step
    requires dev0.cycle.Some?
  {
    match PlanAt(dev0, a.path)
    case Up(_) => Send(d, a.path, now, answered)
    case Clash => SendKept(d, a.path, now, answered)
    case _ => SendCopy(d, a.path, now, answered)
  }

  lemma SendingIsExecute(w: World, d: DeviceId, dev0: Device, l: Ledger, a: SyncAction, now: nat, answered: bool)
    requires dev0.cycle.Some? && Shows(w, d, dev0, l) && MaySend(dev0, l, a)
    ensures var s := SendingStep(d, dev0, a, now, answered);
            Enabled(w, s) && Do(w, s) == Execute(w, d, OpOf(a), now, answered)
  {
    SamePlanAt(dev0, w.devices[d], map[], a.path);
  }

  lemma OpPath(a: SyncAction)
    requires a.local.Some?
    ensures OpOf(a).path == a.path
  {
  }

  lemma ExecuteShows(w: World, d: DeviceId, dev0: Device, l: Ledger, op: Op, now: nat, answered: bool)
    requires dev0.cycle.Some? && Shows(w, d, dev0, l)
    ensures Shows(Execute(w, d, op, now, answered), d, dev0,
                  if !answered then l
                  else if ReplyTo(w.files, op) == Ok then l.(settled := l.settled + {op.path})
                  else l.(held := l.held + {op.path}))
  {
  }

  lemma SendingIsSteps(w: World, d: DeviceId, dev0: Device, l: Ledger, a: SyncAction, fate: Fate, executed: bool,
                       now: nat)
    requires dev0.cycle.Some? && Shows(w, d, dev0, l) && MaySend(dev0, l, a) && Answers(w.files, a, fate)
    ensures var w' := Sent(w, d, a, fate, executed, now); LeadsTo(w, w') && Shows(w', d, dev0, Sending(l, a, fate))
  {
    OpPath(a);
    match fate
    case Untouched => StaysPut(w);
    case Failed(fatal) => FailedSendIsSteps(w, d, dev0, l, a, fatal, executed, now);
    case _ =>
      SendingIsExecute(w, d, dev0, l, a, now, true);
      OneStep(w, SendingStep(d, dev0, a, now, true));
      ExecuteShows(w, d, dev0, l, OpOf(a), now, true);
  }

  lemma FailedSendIsSteps(w: World, d: DeviceId, dev0: Device, l: Ledger, a: SyncAction, fatal: bool, executed: bool,
                          now: nat)
    requires dev0.cycle.Some? && Shows(w, d, dev0, l) && MaySend(dev0, l, a)
    ensures var w' := Sent(w, d, a, Failed(fatal), executed, now);
            LeadsTo(w, w') && Shows(w', d, dev0, Sending(l, a, Failed(fatal)))
  {
    var mid := if executed then Execute(w, d, OpOf(a), now, false) else w;
    if executed {
      SendingIsExecute(w, d, dev0, l, a, now, false);
      OneStep(w, SendingStep(d, dev0, a, now, false));
      ExecuteShows(w, d, dev0, l, OpOf(a), now, false);
    } else {
      StaysPut(w);
    }
    FailingIsAStep(mid, d, dev0, l, FailureOf(a, fatal));
    Onward(w, mid, HeldBack(mid, d, a.path, fatal));
  }

  ghost predicate AllSendable(dev0: Device, l: Ledger, uploads: seq<SyncAction>)
    requires dev0.cycle.Some?
  {
    (forall a :: a in uploads ==> MaySend(dev0, l, a)) && PathsDiffer(uploads)
  }

  ghost predicate PathsDiffer(xs: seq<SyncAction>) {
    forall i, j :: 0 <= i < j < |xs| ==> xs[i].path != xs[j].path
  }

  ghost predicate FateAt(uploads: seq<SyncAction>, fates: seq<Fate>, n: nat, p: Path, settled: bool)
    requires n <= |uploads| == |fates|
  {
    exists i :: 0 <= i < n && uploads[i].path == p &&
        (if settled then fates[i].Succeeded? else fates[i].Failed? || fates[i].Late?)
  }

  ghost predicate FatalIn(fates: seq<Fate>, n: nat)
    requires n <= |fates|
  {
    exists i :: 0 <= i < n && fates[i] == Failed(true)
  }

  /** The ledger after `n` uploads, path by path. */
  ghost predicate SentTo(l0: Ledger, l: Ledger, uploads: seq<SyncAction>, fates: seq<Fate>, n: nat)
    requires n <= |uploads| == |fates|
  {
    && l.disk == l0.disk && l.copies == l0.copies && (l.fatal <==> l0.fatal || FatalIn(fates, n))
    && (forall p :: p in l.settled <==> p in l0.settled || FateAt(uploads, fates, n, p, true))
    && (forall p :: p in l.held <==> p in l0.held || FateAt(uploads, fates, n, p, false))
  }

  lemma StillSendable(dev0: Device, l0: Ledger, l: Ledger, uploads: seq<SyncAction>, fates: seq<Fate>, n: nat)
    requires dev0.cycle.Some? && AllSendable(dev0, l0, uploads) && n < |uploads| == |fates| &&
             SentTo(l0, l, uploads, fates, n)
    ensures MaySend(dev0, l, uploads[n])
  {
    assert uploads[n] in uploads;
    assert MaySend(dev0, l0, uploads[n]);
  }

  lemma SentOneMore(l0: Ledger, l: Ledger, uploads: seq<SyncAction>, fates: seq<Fate>, n: nat)
    requires n < |uploads| == |fates| && SentTo(l0, l, uploads, fates, n)
    ensures SentTo(l0, Sending(l, uploads[n], fates[n]), uploads, fates, n + 1)
  {
    var l' := Sending(l, uploads[n], fates[n]);
    forall p ensures p in l'.settled <==> p in l0.settled || FateAt(uploads, fates, n + 1, p, true) {
      FateOneMore(uploads, fates, n, p, true);
    }
    forall p ensures p in l'.held <==> p in l0.held || FateAt(uploads, fates, n + 1, p, false) {
      FateOneMore(uploads, fates, n, p, false);
    }
    assert FatalIn(fates, n + 1) <==> FatalIn(fates, n) || fates[n] == Failed(true);
  }

  lemma FateOneMore(uploads: seq<SyncAction>, fates: seq<Fate>, n: nat, p: Path, settled: bool)
    requires n < |uploads| == |fates|
    ensures FateAt(uploads, fates, n + 1, p, settled) <==>
              (FateAt(uploads, fates, n, p, settled) ||
               (uploads[n].path == p && (if settled then fates[n].Succeeded? else fates[n].Failed? || fates[n].Late?)))
  {
  }

  ghost function UploadInv(d: DeviceId, dev0: Device, l0: Ledger, uploads: seq<SyncAction>, fates: seq<Fate>): Invariant
    requires dev0.cycle.Some? && |uploads| == |fates|
  {
    (i: nat, w: World) =>
      i <= |uploads| && InCycle(w, d) && SamePlan(dev0, w.devices[d]) && SentTo(l0, LedgerOf(w, d), uploads, fates, i)
  }

  lemma NextUpload(w: World, d: DeviceId, dev0: Device, l0: Ledger, uploads: seq<SyncAction>, fates: seq<Fate>,
                   executed: bool, now: nat, n: nat)
    requires dev0.cycle.Some? && AllSendable(dev0, l0, uploads) && n < |uploads| == |fates|
    requires InCycle(w, d) && SamePlan(dev0, w.devices[d]) && SentTo(l0, LedgerOf(w, d), uploads, fates, n)
    requires uploads[n].local.Some? && Answers(w.files, uploads[n], fates[n])
    ensures var w' := Sent(w, d, uploads[n], fates[n], executed, now);
            && LeadsTo(w, w') && InCycle(w', d) && SamePlan(dev0, w'.devices[d])
            && SentTo(l0, LedgerOf(w', d), uploads, fates, n + 1)
  {
    var l := LedgerOf(w, d);
    assert uploads[n] in uploads;
    StillSendable(dev0, l0, l, uploads, fates, n);
    SendingIsSteps(w, d, dev0, l, uploads[n], fates[n], executed, now);
    SentOneMore(l0, l, uploads, fates, n);
  }

  lemma UploadKeeps(d: DeviceId, dev0: Device, l0: Ledger, uploads: seq<SyncAction>, fates: seq<Fate>,
                    executed: nat -> bool, clock: nat -> nat, i: nat, w: World, w': World)
    requires dev0.cycle.Some? && |uploads| == |fates| && AllSendable(dev0, l0, uploads) && i < |uploads|
    requires UploadInv(d, dev0, l0, uploads, fates)(i, w) && UploadDeed(d, uploads, fates, executed, clock)(i, w, w')
    ensures UploadInv(d, dev0, l0, uploads, fates)(i + 1, w') && LeadsTo(w, w')
  {
    NextUpload(w, d, dev0, l0, uploads, fates, executed(i), clock(i), i);
  }

  lemma ForeignKeepsUploads(d: DeviceId, dev0: Device, l0: Ledger, uploads: seq<SyncAction>, fates: seq<Fate>, i: nat,
                            w: World, s: Step)
    requires dev0.cycle.Some? && |uploads| == |fates| && UploadInv(d, dev0, l0, uploads, fates)(i, w) && s.d != d &&
             Enabled(w, s)
    ensures UploadInv(d, dev0, l0, uploads, fates)(i, Do(w, s))
  {
    ForeignKeepsLedger(w, d, s);
    assert SamePlan(dev0, Do(w, s).devices[d]);
    assert SentTo(l0, LedgerOf(Do(w, s), d), uploads, fates, i);
  }

  lemma UploadsKeep(d: DeviceId, dev0: Device, l0: Ledger, uploads: seq<SyncAction>, fates: seq<Fate>,
                    executed: nat -> bool, clock: nat -> nat)
    requires dev0.cycle.Some? && |uploads| == |fates| && AllSendable(dev0, l0, uploads)
    ensures IsKept(d, |uploads|, UploadDeed(d, uploads, fates, executed, clock), UploadInv(d, dev0, l0, uploads, fates))
  {
    var deed, inv := UploadDeed(d, uploads, fates, executed, clock), UploadInv(d, dev0, l0, uploads, fates);
    forall i: nat, w, w' | i < |uploads| && inv(i, w) && deed(i, w, w') ensures inv(i + 1, w') && LeadsTo(w, w') {
      UploadKeeps(d, dev0, l0, uploads, fates, executed, clock, i, w, w');
    }
    forall i: nat, w, s: Step | inv(i, w) && s.d != d && Enabled(w, s) ensures inv(i, Do(w, s)) {
      ForeignKeepsUploads(d, dev0, l0, uploads, fates, i, w, s);
    }
  }

  lemma UploadsRun(d: DeviceId, dev0: Device, l0: Ledger, uploads: seq<SyncAction>, fates: seq<Fate>,
                   executed: nat -> bool, clock: nat -> nat, moves: seq<Move>, ws: seq<World>)
    requires dev0.cycle.Some? && |uploads| == |fates| && AllSendable(dev0, l0, uploads)
    requires IsHistory(d, |uploads|, UploadDeed(d, uploads, fates, executed, clock), moves, ws) &&
             Shows(ws[0], d, dev0, l0)
    ensures LeadsTo(ws[0], ws[|moves|]) && InCycle(ws[|moves|], d) && SamePlan(dev0, ws[|moves|].devices[d])
    ensures SentTo(l0, LedgerOf(ws[|moves|], d), uploads, fates, |uploads|)
  {
    UploadsKeep(d, dev0, l0, uploads, fates, executed, clock);
    assert SentTo(l0, l0, uploads, fates, 0);
    HistoryIsARun(d, |uploads|, UploadDeed(d, uploads, fates, executed, clock), UploadInv(d, dev0, l0, uploads, fates),
                  moves, ws);
  }

  // ---- The uploads of a round -------------------------------------------------------------

  /** The plan a cycle made: its uploads and conflicts are those of the diff, its failures are downloads. */
  ghost predicate IsPlanOf(dev0: Device, plan: SyncPlan)
    requires dev0.cycle.Some?
  {
    var c := dev0.cycle.value;
    && (forall a :: a in plan.upload <==>
        PlanAt(dev0, a.path).Up? && PlannedUpload(dev0.base, c.working, c.remote, a.path) == Some(a))
    && (forall x :: x in plan.conflicts <==>
        PlanAt(dev0, x.path) == Clash && PlannedConflict(dev0.base, c.working, c.remote, x.path) == Some(x))
    && (forall i, j :: 0 <= i < j < |plan.upload| ==> plan.upload[i].path != plan.upload[j].path)
    && (forall i, j :: 0 <= i < j < |plan.conflicts| ==> plan.conflicts[i].path != plan.conflicts[j].path)
    && (forall f :: f in plan.failures ==> PlanAt(dev0, f.path).Down?)
  }

  /**
   * What a conflict queues: its own path unless the remote side is kept or it is deferred, and the copy of a
   * `KeepBoth`.
   */
  lemma QueuedForIs(choices: map<Path, Choice>, fetch: Path -> Option<DiskFile>, c: Conflict, a: SyncAction)
    ensures a in QueuedFor(choices, fetch, c) <==>
              (|| (a == ConflictToUpload(c) &&
                   (ChoiceFor(choices, c) == KeepLocal || ChoiceFor(choices, c) == KeepBoth))
               || (ChoiceFor(choices, c) == KeepBoth && fetch(c.path).Some? && a == CopyUpload(c, fetch(c.path).value)))
  {
  }

  lemma {:induction false} QueuedIs(choices: map<Path, Choice>, fetch: Path -> Option<DiskFile>, cs: seq<Conflict>,
                                    a: SyncAction)
    ensures a in Queued(choices, fetch, cs) <==> exists c :: c in cs && a in QueuedFor(choices, fetch, c)
  {
    if cs != [] {
      var front, last := cs[..|cs| - 1], cs[|cs| - 1];
      assert cs == front + [last] && last in cs && forall c :: c in front ==> c in cs;
      QueuedIs(choices, fetch, front, a);
    }
  }

  lemma PlannedMaySend(dev0: Device, l1: Ledger, l: Ledger, plan: SyncPlan, choices: map<Path, Choice>,
                       fetch: Path -> Option<DiskFile>, a: SyncAction)
    requires dev0.cycle.Some? && IsPlanOf(dev0, plan) && FreshLedger(dev0, l1) &&
             ResolvedTo(l1, l, choices, fetch, plan.conflicts)
    requires a in plan.upload
    ensures MaySend(dev0, l, a) && PlanAt(dev0, a.path).Up?
  {
  }

  lemma OneConflictAt(dev0: Device, plan: SyncPlan, c: Conflict, c': Conflict)
    requires dev0.cycle.Some? && IsPlanOf(dev0, plan) && c in plan.conflicts && c' in plan.conflicts &&
             c.path == c'.path
    ensures c == c' && PlanAt(dev0, c.path) == Clash && c == ConflictAt(dev0, c.path)
  {
  }

  lemma KeptMaySend(dev0: Device, l1: Ledger, l: Ledger, plan: SyncPlan, choices: map<Path, Choice>,
                    fetch: Path -> Option<DiskFile>, c: Conflict)
    requires dev0.cycle.Some? && IsPlanOf(dev0, plan) && FreshLedger(dev0, l1) &&
             ResolvedTo(l1, l, choices, fetch, plan.conflicts)
    requires c in plan.conflicts && (ChoiceFor(choices, c) == KeepLocal || ChoiceFor(choices, c) == KeepBoth)
    ensures MaySend(dev0, l, ConflictToUpload(c)) && PlanAt(dev0, c.path) == Clash
  {
    OneConflictAt(dev0, plan, c, c);
    forall c' | c' in plan.conflicts && c'.path == c.path ensures c' == c {
      OneConflictAt(dev0, plan, c, c');
    }
  }

  lemma CopyMaySend(dev0: Device, l1: Ledger, plan: SyncPlan, choices: map<Path, Choice>,
                    fetch: Path -> Option<DiskFile>, c: Conflict)
    requires dev0.cycle.Some? && IsPlanOf(dev0, plan) && FreshLedger(dev0, l1) &&
             AllResolvable(dev0, choices, fetch, plan.conflicts)
    requires ResolvedTo(l1, ResolvingAll(l1, choices, fetch, plan.conflicts), choices, fetch, plan.conflicts)
    requires c in plan.conflicts && ChoiceFor(choices, c) == KeepBoth && fetch(c.path).Some?
    ensures var a := CopyUpload(c, fetch(c.path).value);
            MaySend(dev0, ResolvingAll(l1, choices, fetch, plan.conflicts), a) && HasRoom(dev0, a.path)
  {
    CopyStays(dev0, l1, choices, fetch, plan.conflicts, c);
    assert Resolvable(dev0, choices, fetch, c);
    var l, a := ResolvingAll(l1, choices, fetch, plan.conflicts), CopyUpload(c, fetch(c.path).value);
    CopyIsNotChosen(dev0, choices, fetch, plan.conflicts, a.path);
    assert CopiedAt(choices, plan.conflicts, a.path);
    assert IsCopyOf(l, a);
  }

  lemma UploadMaySend(dev0: Device, l1: Ledger, plan: SyncPlan, choices: map<Path, Choice>,
                      fetch: Path -> Option<DiskFile>, a: SyncAction)
    requires dev0.cycle.Some? && IsPlanOf(dev0, plan) && FreshLedger(dev0, l1) &&
             AllResolvable(dev0, choices, fetch, plan.conflicts)
    requires ResolvedTo(l1, ResolvingAll(l1, choices, fetch, plan.conflicts), choices, fetch, plan.conflicts)
    requires a in plan.upload + Queued(choices, fetch, plan.conflicts)
    ensures MaySend(dev0, ResolvingAll(l1, choices, fetch, plan.conflicts), a)
  {
    var l := ResolvingAll(l1, choices, fetch, plan.conflicts);
    if a in plan.upload {
      PlannedMaySend(dev0, l1, l, plan, choices, fetch, a);
    } else {
      QueuedIs(choices, fetch, plan.conflicts, a);
      var c :| c in plan.conflicts && a in QueuedFor(choices, fetch, c);
      QueuedForIs(choices, fetch, c, a);
      if a == ConflictToUpload(c) {
        KeptMaySend(dev0, l1, l, plan, choices, fetch, c);
      } else {
        CopyMaySend(dev0, l1, plan, choices, fetch, c);
      }
    }
  }

  /** Two conflicts' uploads never share a path. */
  lemma QueuedApart(dev0: Device, choices: map<Path, Choice>, fetch: Path -> Option<DiskFile>, c: Conflict,
                    c': Conflict, a: SyncAction, b: SyncAction)
    requires dev0.cycle.Some? && Resolvable(dev0, choices, fetch, c) && Resolvable(dev0, choices, fetch, c')
    requires a in QueuedFor(choices, fetch, c) && b in QueuedFor(choices, fetch, c') && c.path != c'.path
    ensures a.path != b.path
  {
    QueuedForIs(choices, fetch, c, a);
    QueuedForIs(choices, fetch, c', b);
    CopyPathInjective(c.path, c'.path);
  }

  lemma OwnApart(choices: map<Path, Choice>, fetch: Path -> Option<DiskFile>, c: Conflict)
    ensures PathsDiffer(QueuedFor(choices, fetch, c))
  {
    CopyPathInjective(c.path, c.path);
  }

  lemma FrontApart(dev0: Device, choices: map<Path, Choice>, fetch: Path -> Option<DiskFile>, front: seq<Conflict>,
                   last: Conflict, a: SyncAction, b: SyncAction)
    requires dev0.cycle.Some? && AllResolvable(dev0, choices, fetch, front + [last])
    requires a in Queued(choices, fetch, front) && b in QueuedFor(choices, fetch, last)
    ensures a.path != b.path
  {
    var cs := front + [last];
    QueuedIs(choices, fetch, front, a);
    var c :| c in front && a in QueuedFor(choices, fetch, c);
    var k :| 0 <= k < |front| && front[k] == c;
    assert cs[k] == c && cs[|front|] == last && c in cs && last in cs;
    QueuedApart(dev0, choices, fetch, c, last, a, b);
  }

  lemma {:induction false} QueuedDistinct(dev0: Device, choices: map<Path, Choice>, fetch: Path -> Option<DiskFile>,
                                          cs: seq<Conflict>)
    requires dev0.cycle.Some? && AllResolvable(dev0, choices, fetch, cs)
    ensures PathsDiffer(Queued(choices, fetch, cs))
  {
    if cs != [] {
      var front, last := cs[..|cs| - 1], cs[|cs| - 1];
      assert cs == front + [last] && forall c :: c in front ==> c in cs;
      QueuedDistinct(dev0, choices, fetch, front);
      OwnApart(choices, fetch, last);
      var xs, ys := Queued(choices, fetch, front), QueuedFor(choices, fetch, last);
      forall a, b | a in xs && b in ys ensures a.path != b.path {
        FrontApart(dev0, choices, fetch, front, last, a, b);
      }
      AppendDistinct(xs, ys);
    }
  }

  lemma AppendDistinct(xs: seq<SyncAction>, ys: seq<SyncAction>)
    requires PathsDiffer(xs) && PathsDiffer(ys) && forall a, b :: a in xs && b in ys ==> a.path != b.path
    ensures PathsDiffer(xs + ys)
  {
    var zs := xs + ys;
    forall i, j | 0 <= i < j < |zs| ensures zs[i].path != zs[j].path {
      if i < |xs| <= j {
        assert xs[i] in xs && ys[j - |xs|] in ys;
      }
    }
  }

  /** The uploads of a round can all be sent, from the ledger its resolutions leave. */
  lemma RoundIsSendable(dev0: Device, l1: Ledger, plan: SyncPlan, choices: map<Path, Choice>,
                        fetch: Path -> Option<DiskFile>)
    requires dev0.cycle.Some? && IsPlanOf(dev0, plan) && FreshLedger(dev0, l1) &&
             AllResolvable(dev0, choices, fetch, plan.conflicts)
    requires ResolvedTo(l1, ResolvingAll(l1, choices, fetch, plan.conflicts), choices, fetch, plan.conflicts)
    ensures AllSendable(dev0, ResolvingAll(l1, choices, fetch, plan.conflicts),
                        plan.upload + Queued(choices, fetch, plan.conflicts))
  {
    var l, queued := ResolvingAll(l1, choices, fetch, plan.conflicts), Queued(choices, fetch, plan.conflicts);
    forall a | a in plan.upload + queued
      ensures MaySend(dev0, l, a)
      {
      UploadMaySend(dev0, l1, plan, choices, fetch, a);
    }
    RoundIsDistinct(dev0, plan, choices, fetch);
  }

  lemma RoundIsDistinct(dev0: Device, plan: SyncPlan, choices: map<Path, Choice>, fetch: Path -> Option<DiskFile>)
    requires dev0.cycle.Some? && IsPlanOf(dev0, plan) && AllResolvable(dev0, choices, fetch, plan.conflicts)
    ensures PathsDiffer(plan.upload + Queued(choices, fetch, plan.conflicts))
  {
    var queued := Queued(choices, fetch, plan.conflicts);
    QueuedDistinct(dev0, choices, fetch, plan.conflicts);
    forall a, b | a in plan.upload && b in queued ensures a.path != b.path {
      QueuedIsNotUp(dev0, plan, choices, fetch, b);
    }
    AppendDistinct(plan.upload, queued);
  }

  lemma QueuedIsNotUp(dev0: Device, plan: SyncPlan, choices: map<Path, Choice>, fetch: Path -> Option<DiskFile>,
                      b: SyncAction)
    requires dev0.cycle.Some? && AllResolvable(dev0, choices, fetch, plan.conflicts) &&
             b in Queued(choices, fetch, plan.conflicts)
    ensures !PlanAt(dev0, b.path).Up?
  {
    QueuedIs(choices, fetch, plan.conflicts, b);
    var c :| c in plan.conflicts && b in QueuedFor(choices, fetch, c);
    QueuedForIs(choices, fetch, c, b);
    assert Resolvable(dev0, choices, fetch, c);
  }

  // ---- The round as a whole ---------------------------------------------------------------

  /** A cycle whose downloads are over: each one settled or a failure of the plan, or left out after a fatal one. */
  ghost predicate AfterDownloads(w: World, d: DeviceId, plan: SyncPlan) {
    && InCycle(w, d)
    && var dev := w.devices[d];
       var c := dev.cycle.value;
       && c.held == {} && c.copies == map[] && !c.fatal && IsPlanOf(dev, plan)
       && (forall p :: p in c.settled ==> PlanAt(dev, p).Down?)
       && (!AnyFatal(plan.failures) ==>
             forall p :: PlanAt(dev, p).Down? ==> p in c.settled || exists f :: f in plan.failures && f.path == p)
  }

  /** Nothing but downloads is planned where copies go. */
  ghost predicate CopiesHaveRoom(w: World, d: DeviceId, plan: SyncPlan, resolutions: seq<Resolution>)
    requires InCycle(w, d)
  {
    forall x :: x in plan.conflicts && ChoiceFor(ResolutionMap(resolutions), x) == KeepBoth ==>
      HasRoom(w.devices[d], ConflictCopyPath(x.path))
  }

  /** Moves and the worlds they lead through. */
  datatype History = History(moves: seq<Move>, ws: seq<World>)

  ghost function Last(h: History): World
    requires |h.ws| == |h.moves| + 1
  {
    h.ws[|h.moves|]
  }

  /**
   * How a round goes: its failures are held back, its conflicts resolved from what the server serves
   * at the time, its uploads answered by the server of the time, with other devices in between.
   */
  ghost predicate RoundGoes(d: DeviceId, plan: SyncPlan, resolutions: seq<Resolution>, env: Surroundings,
                            result: SyncResult, g: Progress, executed: nat -> bool, clock: nat -> nat, h1: History,
                            h2: History, h3: History) {
    && |result.upload| == |g.fates|
    && IsHistory(d, |plan.failures|, FailureDeed(d, plan.failures), h1.moves, h1.ws)
    && IsHistory(d, |plan.conflicts|, ResolutionDeed(d, ResolutionMap(resolutions), env.fetch, plan.conflicts),
                 h2.moves, h2.ws)
    && IsHistory(d, |result.upload|, UploadDeed(d, result.upload, g.fates, executed, clock), h3.moves, h3.ws)
    && h2.ws[0] == Last(h1) && h3.ws[0] == Last(h2)
  }

  ghost function AfterFailures(w: World, d: DeviceId, plan: SyncPlan): Ledger
    requires InCycle(w, d)
  {
    FailingAll(LedgerOf(w, d), plan.failures, |plan.failures|)
  }

  ghost function MidLedger(w: World, d: DeviceId, plan: SyncPlan, resolutions: seq<Resolution>,
                           env: Surroundings): Ledger
    requires InCycle(w, d)
  {
    ResolvingAll(AfterFailures(w, d, plan), ResolutionMap(resolutions), env.fetch, plan.conflicts)
  }

  /** The ledger when the uploads begin, and that all of them can be sent. */
  lemma MidLedgerIs(w: World, d: DeviceId, plan: SyncPlan, resolutions: seq<Resolution>, env: Surroundings)
    requires AfterDownloads(w, d, plan) && CopiesHaveRoom(w, d, plan, resolutions)
    requires forall x :: x in plan.conflicts ==> CanApply(ResolutionMap(resolutions), env.fetch, x)
    ensures var dev0, choices := w.devices[d], ResolutionMap(resolutions);
            var l1, l2 := AfterFailures(w, d, plan), MidLedger(w, d, plan, resolutions, env);
            && FreshLedger(dev0, l1) && AllResolvable(dev0, choices, env.fetch, plan.conflicts)
            && ResolvedTo(l1, l2, choices, env.fetch, plan.conflicts)
            && l1 == LedgerOf(w, d).(held := set f | f in plan.failures :: f.path, fatal := AnyFatal(plan.failures))
            && AllSendable(dev0, l2, plan.upload + Queued(choices, env.fetch, plan.conflicts))
  {
    var dev0, choices := w.devices[d], ResolutionMap(resolutions);
    var l0, l1 := LedgerOf(w, d), AfterFailures(w, d, plan);
    FailingAllIs(l0, plan.failures, |plan.failures|);
    assert plan.failures[..|plan.failures|] == plan.failures;
    assert l0.held + (set f | f in plan.failures :: f.path) == (set f | f in plan.failures :: f.path);
    forall x | x in plan.conflicts ensures Resolvable(dev0, choices, env.fetch, x) {
      OneConflictAt(dev0, plan, x, x);
    }
    ResolutionsLedger(dev0, l1, choices, env.fetch, plan.conflicts);
    RoundIsSendable(dev0, l1, plan, choices, env.fetch);
  }

  /** The hold-back set and the fatal flag of the ledger are those of the round's accounts. */
  lemma LedgerAgrees(l1: Ledger, l2: Ledger, l3: Ledger, plan: SyncPlan, resolutions: seq<Resolution>,
                     env: Surroundings, disk0: Disk, result: SyncResult, disk: Disk, g: Progress, batches: seq<Range>)
    requires Reports(plan, resolutions, env, disk0, result, disk, g, batches)
    requires ResolvedTo(l1, l2, ResolutionMap(resolutions), env.fetch, plan.conflicts) && l1.disk == disk0
    requires l1.held == (set f | f in plan.failures :: f.path) && l1.fatal == AnyFatal(plan.failures)
    requires SentTo(l2, l3, result.upload, g.fates, |result.upload|)
    ensures l3.held == g.held && l3.disk == disk && l3.fatal == AnyFatal(result.failures)
  {
    forall p ensures p in l3.held <==> p in g.held {
      HeldAgrees(l1, l2, l3, plan, resolutions, env, disk0, result, disk, g, batches, p);
    }
    FatalAgrees(result.upload, g);
    assert AnyFatal(result.failures) <==> AnyFatal(plan.failures) || AnyFatal(g.failures) by {
      assert forall f :: f in result.failures <==> f in plan.failures || f in g.failures;
    }
  }

  lemma HeldAgrees(l1: Ledger, l2: Ledger, l3: Ledger, plan: SyncPlan, resolutions: seq<Resolution>, env: Surroundings,
                   disk0: Disk, result: SyncResult, disk: Disk, g: Progress, batches: seq<Range>, p: Path)
    requires Reports(plan, resolutions, env, disk0, result, disk, g, batches)
    requires ResolvedTo(l1, l2, ResolutionMap(resolutions), env.fetch, plan.conflicts)
    requires l1.held == (set f | f in plan.failures :: f.path) &&
             SentTo(l2, l3, result.upload, g.fates, |result.upload|)
    ensures p in l3.held <==> p in g.held
  {
    var choices := ResolutionMap(resolutions);
    var deferred := Deferred(choices, plan.conflicts);
    var held0 := HeldAtFirst(plan.failures, deferred);
    assert p in held0 <==> p in l2.held by {
      DeferredAgrees(choices, plan.conflicts, p);
    }
    FateAgrees(result.upload, held0, g, p);
  }

  lemma DeferredAgrees(choices: map<Path, Choice>, cs: seq<Conflict>, p: Path)
    ensures ChosenAt(choices, cs, Defer, p) <==> p in (set c | c in Deferred(choices, cs) :: c.path)
  {
    if ChosenAt(choices, cs, Defer, p) {
      var c :| c in cs && ChoiceFor(choices, c) == Defer && c.path == p;
      assert c in Deferred(choices, cs);
    }
  }

  lemma FateAgrees(uploads: seq<SyncAction>, held0: set<Path>, g: Progress, p: Path)
    requires Accounts(uploads, held0, g)
    ensures p in g.held <==> p in held0 || FateAt(uploads, g.fates, |uploads|, p, false)
  {
  }

  lemma FatalAgrees(uploads: seq<SyncAction>, g: Progress)
    requires Tallies(uploads, g)
    ensures AnyFatal(g.failures) <==> FatalIn(g.fates, |g.fates|)
  {
    if AnyFatal(g.failures) {
      var f :| f in g.failures && f.fatal;
      assert IsFailureOfSome(uploads, g.fates, f);
    }
    if FatalIn(g.fates, |g.fates|) {
      var i :| 0 <= i < |g.fates| && g.fates[i] == Failed(true);
      assert FailureOf(uploads[i], true) in g.failures;
    }
  }

  /** Without a fatal failure nothing planned is left open and every copy is settled or held back. */
  lemma NothingIsLeftOpen(w: World, d: DeviceId, plan: SyncPlan, resolutions: seq<Resolution>, env: Surroundings,
                          l1: Ledger, l2: Ledger, l3: Ledger, uploads: seq<SyncAction>, fates: seq<Fate>, p: Path)
    requires AfterDownloads(w, d, plan) && !AnyFatal(plan.failures) && |uploads| == |fates| && Untouched !in fates
    requires forall x :: x in plan.conflicts ==> CanApply(ResolutionMap(resolutions), env.fetch, x)
    requires uploads == plan.upload + Queued(ResolutionMap(resolutions), env.fetch, plan.conflicts)
    requires l1.settled == LedgerOf(w, d).settled && l1.copies == map[] &&
             l1.held == (set f | f in plan.failures :: f.path)
    requires ResolvedTo(l1, l2, ResolutionMap(resolutions), env.fetch, plan.conflicts) &&
             SentTo(l2, l3, uploads, fates, |uploads|)
    ensures PlanAt(w.devices[d], p) != Nothing || p in l3.copies ==> p in l3.settled || p in l3.held
  {
    var dev, choices := w.devices[d], ResolutionMap(resolutions);
    if a :| a in uploads && a.path == p {
      var i :| 0 <= i < |uploads| && uploads[i] == a;
      assert fates[i] in fates;
      assert FateAt(uploads, fates, |uploads|, p, true) || FateAt(uploads, fates, |uploads|, p, false);
    } else {
      NotUploaded(dev, plan, choices, env.fetch, l1, l2, uploads, p);
    }
  }

  lemma NotUploaded(dev: Device, plan: SyncPlan, choices: map<Path, Choice>, fetch: Path -> Option<DiskFile>,
                    l1: Ledger, l2: Ledger, uploads: seq<SyncAction>, p: Path)
    requires dev.cycle.Some? && IsPlanOf(dev, plan) && forall x :: x in plan.conflicts ==> CanApply(choices, fetch, x)
    requires uploads == plan.upload + Queued(choices, fetch, plan.conflicts) && forall a :: a in uploads ==> a.path != p
    requires l1.copies == map[] && (PlanAt(dev, p).Down? ==> p in l1.settled || p in l1.held)
    requires ResolvedTo(l1, l2, choices, fetch, plan.conflicts)
    ensures PlanAt(dev, p) != Nothing || p in l2.copies ==> p in l2.settled || p in l2.held
  {
    var c := dev.cycle.value;
    if p in l2.copies {
      var x :| x in plan.conflicts && ChoiceFor(choices, x) == KeepBoth && ConflictCopyPath(x.path) == p;
      IsQueued(choices, fetch, plan, uploads, x, CopyUpload(x, fetch(x.path).value));
    } else if PlanAt(dev, p).Up? {
      var a := PlannedUpload(dev.base, c.working, c.remote, p).value;
      assert a in plan.upload && a in uploads;
    } else if PlanAt(dev, p) == Clash {
      var x := PlannedConflict(dev.base, c.working, c.remote, p).value;
      assert x in plan.conflicts && x.path == p;
      if ChoiceFor(choices, x) == KeepLocal || ChoiceFor(choices, x) == KeepBoth {
        IsQueued(choices, fetch, plan, uploads, x, ConflictToUpload(x));
      } else {
        assert ChosenAt(choices, plan.conflicts, ChoiceFor(choices, x), p);
      }
    }
  }

  lemma IsQueued(choices: map<Path, Choice>, fetch: Path -> Option<DiskFile>, plan: SyncPlan, uploads: seq<SyncAction>,
                 x: Conflict, a: SyncAction)
    requires x in plan.conflicts && uploads == plan.upload + Queued(choices, fetch, plan.conflicts)
    requires || (a == ConflictToUpload(x) && (ChoiceFor(choices, x) == KeepLocal || ChoiceFor(choices, x) == KeepBoth))
             || (ChoiceFor(choices, x) == KeepBoth && fetch(x.path).Some? && a == CopyUpload(x, fetch(x.path).value))
    ensures a in uploads
  {
    QueuedForIs(choices, fetch, x, a);
    QueuedIs(choices, fetch, plan.conflicts, a);
  }

  /** Up to the uploads. */
  lemma RoundBegins(w: World, d: DeviceId, plan: SyncPlan, resolutions: seq<Resolution>, env: Surroundings,
                    h1: History, h2: History)
    requires AfterDownloads(w, d, plan) && CopiesHaveRoom(w, d, plan, resolutions)
    requires forall x :: x in plan.conflicts ==> CanApply(ResolutionMap(resolutions), env.fetch, x)
    requires IsHistory(d, |plan.failures|, FailureDeed(d, plan.failures), h1.moves, h1.ws) && h1.ws[0] == w
    requires IsHistory(d, |plan.conflicts|, ResolutionDeed(d, ResolutionMap(resolutions), env.fetch, plan.conflicts),
                       h2.moves, h2.ws)
    requires h2.ws[0] == Last(h1)
    ensures LeadsTo(w, Last(h2)) && Shows(Last(h2), d, w.devices[d], MidLedger(w, d, plan, resolutions, env))
  {
    var dev0 := w.devices[d];
    MidLedgerIs(w, d, plan, resolutions, env);
    FailuresRun(d, dev0, LedgerOf(w, d), plan.failures, h1.moves, h1.ws);
    ResolutionsRun(d, dev0, AfterFailures(w, d, plan), ResolutionMap(resolutions), env.fetch, plan.conflicts, h2.moves,
                   h2.ws);
    Onward(w, Last(h1), Last(h2));
  }

  /**
   * Refinement. A round of `CompleteSync` against the modelled server, with any steps of other devices
   * anywhere in it, is a run of the protocol: it ends with the same disk and the same hold-back set,
   * the fatal flag is up exactly when the result has a fatal failure, and when the round checks in over
   * the rows it then finds, the protocol's checkpoint is enabled and gives the same base.
   */
  lemma RoundIsARun(w: World, d: DeviceId, plan: SyncPlan, resolutions: seq<Resolution>, env: Surroundings,
                    result: SyncResult, base': Manifest, disk: Disk, g: Progress, batches: seq<Range>,
                    executed: nat -> bool, clock: nat -> nat, h1: History, h2: History, h3: History)
    requires AfterDownloads(w, d, plan) && CopiesHaveRoom(w, d, plan, resolutions)
    requires Completed(plan, resolutions, env, w.devices[d].base, w.devices[d].disk, result, base', disk, g, batches)
    requires RoundGoes(d, plan, resolutions, env, result, g, executed, clock, h1, h2, h3) && h1.ws[0] == w
    ensures var w' := Last(h3);
            && LeadsTo(w, w') && InCycle(w', d)
            && w'.devices[d].disk == disk && w'.devices[d].cycle.value.held == g.held
            && (w'.devices[d].cycle.value.fatal <==> AnyFatal(result.failures))
            && (Checkpointed(env, result) && env.refetched == Some(w'.files) ==>
                  Enabled(w', Checkpoint(d)) && Do(w', Checkpoint(d)).devices[d].base == base')
  {
    var dev0, w' := w.devices[d], Last(h3);
    var l1, l2 := AfterFailures(w, d, plan), MidLedger(w, d, plan, resolutions, env);
    MidLedgerIs(w, d, plan, resolutions, env);
    RoundBegins(w, d, plan, resolutions, env, h1, h2);
    UploadsRun(d, dev0, l2, result.upload, g.fates, executed, clock, h3.moves, h3.ws);
    Onward(w, Last(h2), w');
    LedgerAgrees(l1, l2, LedgerOf(w', d), plan, resolutions, env, dev0.disk, result, disk, g, batches);
    if Checkpointed(env, result) {
      assert forall f :: f in plan.failures || f in g.failures ==> f in result.failures;
      ChecksInLikewise(w, w', d, plan, resolutions, env, l1, l2, LedgerOf(w', d), result, g);
    }
  }

  lemma ChecksInLikewise(w: World, w': World, d: DeviceId, plan: SyncPlan, resolutions: seq<Resolution>,
                         env: Surroundings, l1: Ledger, l2: Ledger, l3: Ledger, result: SyncResult, g: Progress)
    requires AfterDownloads(w, d, plan) && Shows(w', d, w.devices[d], l3) && !l3.fatal && |result.upload| == |g.fates|
    requires Untouched !in g.fates && !AnyFatal(plan.failures)
    requires forall x :: x in plan.conflicts ==> CanApply(ResolutionMap(resolutions), env.fetch, x)
    requires result.upload == plan.upload + Queued(ResolutionMap(resolutions), env.fetch, plan.conflicts)
    requires l1.settled == LedgerOf(w, d).settled && l1.copies == map[] &&
             l1.held == (set f | f in plan.failures :: f.path)
    requires ResolvedTo(l1, l2, ResolutionMap(resolutions), env.fetch, plan.conflicts) &&
             SentTo(l2, l3, result.upload, g.fates, |result.upload|)
    ensures Enabled(w', Checkpoint(d)) &&
            Do(w', Checkpoint(d)).devices[d].base == NextBase(w.devices[d].base, w'.files, l3.held)
  {
    forall p ensures PlanAt(w'.devices[d], p) != Nothing || p in l3.copies ==> p in l3.settled || p in l3.held {
      NothingIsLeftOpen(w, d, plan, resolutions, env, l1, l2, l3, result.upload, g.fates, p);
      SamePlanAt(w.devices[d], w'.devices[d], map[], p);
    }
  }

  // ---- A round that meets the hypotheses --------------------------------------------------

  const NEW_FILE := DiskFile("h", 0, 0)
  const NEW_ENTRY := FileEntry("h", 0, 0, false, "")

  ghost function Nobody(p: Path): bool { false }

  ghost const PUSH: SyncAction := SyncAction("a", Upload, Some(NEW_ENTRY), None)
  ghost const PUSHED: Manifest := map["a" := FileEntry("h", 0, 0, false, "a")]

  /** One device with one new file, over an empty server. */
  ghost function Newcomer(): World {
    World(map[], map[0 := Device(map["a" := NEW_FILE], map[], Nobody,
                                 Some(Cycle(map["a" := NEW_ENTRY], map[], {}, {}, map[], false, {}, {})), {})])
  }

  ghost const PUSH_PLAN: SyncPlan := SyncPlan([PUSH], [], [], [])

  function NoFile(p: Path): Option<DiskFile> { None }
  function Readable(i: nat): bool { true }
  function Accepted(i: nat): BatchReply { Answered([OpResult(200, None)]) }

  ghost const CALM: Surroundings := Surroundings(NoFile, Readable, Accepted, Some(PUSHED))
  ghost const SENT: Progress := Progress(1, [], [], {}, [Succeeded])

  lemma NewcomerHasPlan()
    ensures AfterDownloads(Newcomer(), 0, PUSH_PLAN)
  {
    var dev := Newcomer().devices[0];
    assert PlanAt(dev, "a") == Up(Upload);
    assert PlannedUpload(dev.base, dev.cycle.value.working, dev.cycle.value.remote, "a") == Some(PUSH);
    forall p | p != "a" ensures PlanAt(dev, p) == Nothing {
    }
  }

  lemma PushIsDictated()
    ensures Splits(Sizes([PUSH]), [Range(0, 1)], 1) && Accounts([PUSH], {}, SENT)
    ensures AsDictated([PUSH], Readable, Accepted, [Range(0, 1)], 1, [Succeeded])
  {
    assert CountFates([Succeeded], 1) == Counts(1, 0, 0) by {
      assert CountFates([Succeeded], 0) == Counts(0, 0, 0);
    }
    assert Members([PUSH], Readable, 0, 0) == [] && Members([PUSH], Readable, 0, 1) == [0];
    assert FateIn([PUSH], Readable, Accepted, Range(0, 1), 0) == Succeeded;
  }

  lemma PushReports() returns (result: SyncResult, base': Manifest)
    ensures Completed(PUSH_PLAN, [], CALM, map[], map["a" := NEW_FILE], result, base', map["a" := NEW_FILE], SENT,
                      [Range(0, 1)])
    ensures result.upload == [PUSH] && Checkpointed(CALM, result)
  {
    result, base' := SyncResult([PUSH], [], [], false), NextBase(map[], PUSHED, {});
    PushIsDictated();
    assert [PUSH] + [] == [PUSH];
    assert HeldAtFirst([], []) == {};
    assert Deferred(map[], []) == [] && Queued(map[], NoFile, []) == [];
  }

  function Never(i: nat): bool { false }
  function Midnight(i: nat): nat { 0 }

  ghost function Pushing(): Deed {
    UploadDeed(0, [PUSH], [Succeeded], Never, Midnight)
  }

  /** The hypotheses of the refinement theorem are met by a round that uploads a file and checks in. */
  lemma ARoundIsARun() returns (w': World)
    ensures LeadsTo(Newcomer(), w') && w'.files == PUSHED
    ensures Enabled(w', Checkpoint(0)) && At(Do(w', Checkpoint(0)).devices[0].base, "a") == Present("h")
  {
    var w := Newcomer();
    NewcomerHasPlan();
    var result, base' := PushReports();
    w' := PushIsSent();
    var h := History([], [w]);
    RoundIsARun(w, 0, PUSH_PLAN, [], CALM, result, base', map["a" := NEW_FILE], SENT, [Range(0, 1)], Never, Midnight,
                h, h, History([Own], [w, w']));
    NextBaseAt(map[], PUSHED, {}, "a");
  }

  lemma PushIsSent() returns (w': World)
    ensures w'.files == PUSHED && IsHistory(0, 1, Pushing(), [Own], [Newcomer(), w'])
  {
    assert OpOf(PUSH) == Put("a", "", "h", 0, "a");
    w' := Sent(Newcomer(), 0, PUSH, Succeeded, false, 0);
    PushIsAnswered();
    assert [PUSH][0] == PUSH && [Succeeded][0] == Succeeded && !Never(0) && Midnight(0) == 0;
    assert w' == Sent(Newcomer(), 0, PUSH, Succeeded, Never(0), Midnight(0));
    assert Pushing()(0, Newcomer(), w');
    OneDeed(0, Pushing(), Newcomer(), w');
  }

  lemma PushIsAnswered()
    ensures PUSH.local.Some? && Answers(Newcomer().files, PUSH, Succeeded) && InCycle(Newcomer(), 0)
  {
    assert OpOf(PUSH) == Put("a", "", "h", 0, "a");
  }

  lemma OneDeed(d: DeviceId, deed: Deed, w: World, w': World)
    requires deed(0, w, w')
    ensures IsHistory(d, 1, deed, [Own], [w, w'])
  {
    var moves := [Own];
    assert OwnCount(moves, 0) == 0 && OwnCount(moves, 1) == 1;
    assert IsMove(d, deed, 0, Own, w, w');
  }
}
