/** `server/src/blobs.rs`: live blobs, archived versions and trash of one vault, with undo. */
module BlobStorage {
  import opened Types
  import opened HistoryNames
  import opened Sorting

  type Blob = string

  datatype Tier = Versions | Trashed

  datatype Slot = Slot(tier: Tier, path: Path, name: string)

  datatype Store = Store(live: map<Path, Blob>, history: map<Slot, Blob>)

  /** What `undo` needs: where the live blob went, if it went anywhere. */
  datatype BlobUndo = BlobUndo(path: Path, restoreFrom: Option<Slot>)

  datatype Change = Replace(path: Path, blob: Blob, archive: bool) | Trash(path: Path)

  // ---- The search for a free name ---------------------------------------------------------

  predicate Taken(history: map<Slot, Blob>, tier: Tier, path: Path, now: nat, nth: nat) {
    Slot(tier, path, Name(now, nth)) in history
  }

  /** A directory holding the first `n` names of one second has at least `n` entries. */
  lemma {:induction false} TakenNamesFit(history: map<Slot, Blob>, tier: Tier, path: Path, now: nat, n: nat)
    requires forall k: nat :: k < n ==> Taken(history, tier, path, now, k)
    ensures n <= |history|
  {
    if n > 0 {
      var last := Slot(tier, path, Name(now, n - 1));
      var rest := history - {last};
      forall k: nat | k < n - 1 ensures Taken(rest, tier, path, now, k) {
        assert Taken(history, tier, path, now, k);
        if Name(now, k) == Name(now, n - 1) {
          NamesApart(now, k, n - 1);
        }
      }
      TakenNamesFit(rest, tier, path, now, n - 1);
      assert Taken(history, tier, path, now, n - 1);
      assert rest.Keys == history.Keys - {last};
    }
  }

  ghost function FirstFreeFrom(history: map<Slot, Blob>, tier: Tier, path: Path, now: nat, k: nat): (n: nat)
    requires forall j: nat :: j < k ==> Taken(history, tier, path, now, j)
    ensures !Taken(history, tier, path, now, n) && n <= |history|
    ensures forall j: nat :: j < n ==> Taken(history, tier, path, now, j)
    decreases |history| + 1 - k
  {
    TakenNamesFit(history, tier, path, now, k);
    if Taken(history, tier, path, now, k) then
      TakenNamesFit(history, tier, path, now, k + 1);
      FirstFreeFrom(history, tier, path, now, k + 1)
    else k
  }

  ghost function FreshName(history: map<Slot, Blob>, tier: Tier, path: Path, now: nat): string {
    Name(now, FirstFreeFrom(history, tier, path, now, 0))
  }

  // ---- What each operation does -----------------------------------------------------------

  function Moved(s: Store, slot: Slot): Store {
    if slot.path in s.live then Store(s.live - {slot.path}, s.history[slot := s.live[slot.path]]) else s
  }

  function TierOf(c: Change): Tier {
    if c.Replace? then Versions else Trashed
  }

  predicate KeepsOld(s: Store, c: Change) {
    c.path in s.live && (c.Replace? ==> c.archive)
  }

  function Changed(s: Store, c: Change, name: string): Store {
    var moved := if c.Replace? && !c.archive then s else Moved(s, Slot(TierOf(c), c.path, name));
    if c.Replace? then Store(moved.live[c.path := c.blob], moved.history) else moved
  }

  function TokenOf(s: Store, c: Change, name: string): BlobUndo {
    BlobUndo(c.path, if KeepsOld(s, c) then Some(Slot(TierOf(c), c.path, name)) else None)
  }

  /** What undo leaves when removing the live blob works or not, and moving the entry back works or not. */
  function UndoneWith(s: Store, u: BlobUndo, removes: bool, moves: bool): Store {
    var dropped := if removes then s.live - {u.path} else s.live;
    if moves && u.restoreFrom.Some? && u.restoreFrom.value in s.history then
      Store(dropped[u.path := s.history[u.restoreFrom.value]], s.history - {u.restoreFrom.value})
    else Store(dropped, s.history)
  }

  function Undone(s: Store, u: BlobUndo): Store {
    UndoneWith(s, u, true, true)
  }

  class BlobStore {
    var live: map<Path, Blob>
    var history: map<Slot, Blob>

    ghost function State(): Store
      reads this
    {
      Store(live, history)
    }

    constructor ()
      ensures State() == Store(map[], map[])
    {
      live, history := map[], map[];
    }

    /** Moves the live blob to the first free name of this second; nothing when there is none. */
    method MoveLiveReturning(tier: Tier, path: Path, now: nat) returns (name: Option<string>)
      modifies this
      ensures name == if path in old(live) then Some(FreshName(old(history), tier, path, now)) else None
      ensures State() == Moved(old(State()), Slot(tier, path, FreshName(old(history), tier, path, now)))
    {
      if path !in live {
        return None;
      }
      var candidate, nth := Decimal(now), 0;
      while Slot(tier, path, candidate) in history
        invariant live == old(live) && history == old(history)
        invariant candidate == Name(now, nth) && nth <= |history|
        invariant forall k: nat :: k < nth ==> Taken(history, tier, path, now, k)
        decreases |history| + 1 - nth
      {
        assert Taken(history, tier, path, now, nth);
        nth := nth + 1;
        candidate := Decimal(now) + "-" + Decimal(nth);
        TakenNamesFit(history, tier, path, now, nth);
      }
      assert !Taken(history, tier, path, now, nth);
      assert nth == FirstFreeFrom(history, tier, path, now, 0);
      history := history[Slot(tier, path, candidate) := live[path]];
      live := live - {path};
      name := Some(candidate);
    }

    /**
     * Archives the live blob if asked to and writes the new one; a write that fails leaves the archived one
     * where it is.
     */
    method ReplaceLive(path: Path, blob: Blob, archive: bool, now: nat, writes: bool) returns (undo: Option<BlobUndo>)
      modifies this
      ensures var before, name := old(State()), FreshName(old(history), Versions, path, now);
              var c := Replace(path, blob, archive);
              && undo == (if writes then Some(TokenOf(before, c, name)) else None)
              && State() == (if writes then Changed(before, c, name)
                             else if archive then Moved(before, Slot(Versions, path, name)) else before)
    {
      var archived := None;
      if archive {
        archived := MoveLiveReturning(Versions, path, now);
      }
      if !writes {
        return None;
      }
      live := live[path := blob];
      undo := Some(BlobUndo(path, if archived.Some? then Some(Slot(Versions, path, archived.value)) else None));
    }

    method TrashLive(path: Path, now: nat) returns (undo: BlobUndo)
      modifies this
      ensures var before, name := old(State()), FreshName(old(history), Trashed, path, now);
              State() == Changed(before, Trash(path), name) && undo == TokenOf(before, Trash(path), name)
    {
      var trashed := MoveLiveReturning(Trashed, path, now);
      undo := BlobUndo(path, if trashed.Some? then Some(Slot(Trashed, path, trashed.value)) else None);
    }

    /** Best effort: a file operation that fails is passed over. */
    method UndoChange(undo: BlobUndo, removes: bool, moves: bool)
      modifies this
      ensures State() == UndoneWith(old(State()), undo, removes, moves)
    {
      if removes {
        live := live - {undo.path};
      }
      if undo.restoreFrom.Some? {
        var slot := undo.restoreFrom.value;
        if moves && slot in history {
          live := live[undo.path := history[slot]];
          history := history - {slot};
        }
      }
    }
  }

  // ---- Undo -------------------------------------------------------------------------------

  predicate FreeFor(s: Store, c: Change, name: string) {
    Slot(TierOf(c), c.path, name) !in s.history
  }

  /** A change that writes over a live blob without archiving it. */
  predicate Overwrites(s: Store, c: Change) {
    c.Replace? && c.path in s.live && !c.archive
  }

  /**
   * Undo restores live blobs, versions and trash exactly when the change overwrote nothing; other paths and
   * history come back regardless.
   */
  lemma UndoRestoresIff(s: Store, c: Change, name: string)
    requires FreeFor(s, c, name)
    ensures Undone(Changed(s, c, name), TokenOf(s, c, name)) == s <==> !Overwrites(s, c)
    ensures Undone(Changed(s, c, name), TokenOf(s, c, name)).history == s.history
    ensures Undone(Changed(s, c, name), TokenOf(s, c, name)).live - {c.path} == s.live - {c.path}
  {
    var slot := Slot(TierOf(c), c.path, name);
    var back := Undone(Changed(s, c, name), TokenOf(s, c, name));
    assert s.history[slot := ""] - {slot} == s.history;
    if KeepsOld(s, c) {
      assert back.history == s.history;
      assert back.live == s.live;
    } else {
      assert back.history == s.history;
      assert back.live == s.live - {c.path};
    }
  }

  /** A blob written over without an archive does not come back. */
  lemma AnOverwrittenBlobIsGone()
    ensures var s, c := Store(map["a" := "h"], map[]), Replace("a", "k", false);
            Undone(Changed(s, c, "0"), TokenOf(s, c, "0")) != s
  {
    UndoRestoresIff(Store(map["a" := "h"], map[]), Replace("a", "k", false), "0");
  }

  /** Changes made one after another at any times, each under the name that was free then. */
  datatype Timed = Timed(change: Change, now: nat)

  ghost function After(s: Store, changes: seq<Timed>): Store {
    if changes == [] then s
    else
      var before, last := After(s, changes[..|changes| - 1]), changes[|changes| - 1];
      Changed(before, last.change, FreshName(before.history, TierOf(last.change), last.change.path, last.now))
  }

  ghost function UndoneAll(s: Store, changes: seq<Timed>, now: Store): Store {
    if changes == [] then now
    else
      var front, last := changes[..|changes| - 1], changes[|changes| - 1];
      var before := After(s, front);
      var name := FreshName(before.history, TierOf(last.change), last.change.path, last.now);
      UndoneAll(s, front, Undone(now, TokenOf(before, last.change, name)))
  }

  /** Undoing any sequence of changes that overwrote nothing, in reverse order restores the whole store. */
  lemma {:induction false} UndoInReverseRestores(s: Store, changes: seq<Timed>)
    requires forall k :: 0 <= k < |changes| ==> !Overwrites(After(s, changes[..k]), changes[k].change)
    ensures UndoneAll(s, changes, After(s, changes)) == s
  {
    if changes != [] {
      var front, last := changes[..|changes| - 1], changes[|changes| - 1];
      forall k | 0 <= k < |front| ensures front[k] == changes[k] && front[..k] == changes[..k] {
      }
      UndoInReverseRestores(s, front);
      var before := After(s, front);
      var name := FreshName(before.history, TierOf(last.change), last.change.path, last.now);
      UndoRestoresIff(before, last.change, name);
    }
  }

  // ---- History over a run -----------------------------------------------------------------

  /** A change that committed, or one that was rolled back at once. */
  datatype Event = Event(change: Change, now: nat, commits: bool)

  ghost function NameAt(s: Store, e: Event): string {
    FreshName(s.history, TierOf(e.change), e.change.path, e.now)
  }

  ghost function Next(s: Store, e: Event): Store {
    var changed := Changed(s, e.change, NameAt(s, e));
    if e.commits then changed else Undone(changed, TokenOf(s, e.change, NameAt(s, e)))
  }

  ghost function Ran(events: seq<Event>): Store {
    if events == [] then Store(map[], map[]) else Next(Ran(events[..|events| - 1]), events[|events| - 1])
  }

  /** The blob an event filed under `(tier, path)`, with its name. */
  datatype Filed = Filed(written: Written, blob: Blob)

  ghost function Log(events: seq<Event>, tier: Tier, path: Path): seq<Filed> {
    if events == [] then []
    else
      var front, e := events[..|events| - 1], events[|events| - 1];
      var s := Ran(front);
      if e.commits && e.change.path == path && TierOf(e.change) == tier && KeepsOld(s, e.change) then
        Log(front, tier, path) +
        [Filed(Written(e.now, FirstFreeFrom(s.history, tier, path, e.now, 0)), s.live[path])]
      else Log(front, tier, path)
  }

  function WrittenOf(log: seq<Filed>): (r: seq<Written>)
    ensures |r| == |log| && forall k :: 0 <= k < |log| ==> r[k] == log[k].written
  {
    seq(|log|, k requires 0 <= k < |log| => log[k].written)
  }

  /** The directory holds exactly the logged blobs under their names. */
  ghost predicate Holds(history: map<Slot, Blob>, tier: Tier, path: Path, log: seq<Filed>) {
    && (forall k :: 0 <= k < |log| ==>
          Get(history, Slot(tier, path, NameOf(log[k].written))) == Some(log[k].blob))
    && (forall name :: Slot(tier, path, name) in history ==>
          exists k :: 0 <= k < |log| && NameOf(log[k].written) == name)
  }

  ghost predicate ClockAdvances(events: seq<Event>) {
    && (forall i, j :: 0 <= i < j < |events| ==> events[i].now <= events[j].now)
    && (forall k :: 0 <= k < |events| ==> events[k].now < U64)
  }

  lemma {:induction false} HistoryFits(events: seq<Event>)
    ensures |Ran(events).history| <= |events|
  {
    if events != [] {
      var front, e := events[..|events| - 1], events[|events| - 1];
      HistoryFits(front);
      StepHistory(Ran(front), e);
    }
  }

  /** A step files at most one blob, and none when it rolls back. */
  lemma StepHistory(s: Store, e: Event)
    ensures Next(s, e).history ==
              if e.commits && KeepsOld(s, e.change) then
                s.history[Slot(TierOf(e.change), e.change.path, NameAt(s, e)) := s.live[e.change.path]]
              else s.history
    ensures |Next(s, e).history| <= |s.history| + 1
  {
    var name := NameAt(s, e);
    if !e.commits {
      UndoRestoresIff(s, e.change, name);
    } else if KeepsOld(s, e.change) {
      var slot := Slot(TierOf(e.change), e.change.path, name);
      assert s.history[slot := s.live[e.change.path]].Keys == s.history.Keys + {slot};
    }
  }

  lemma HoldsOneMore(history: map<Slot, Blob>, tier: Tier, path: Path, log: seq<Filed>, f: Filed)
    requires Holds(history, tier, path, log) && Slot(tier, path, NameOf(f.written)) !in history
    ensures Holds(history[Slot(tier, path, NameOf(f.written)) := f.blob], tier, path, log + [f])
  {
    var log' := log + [f];
    assert log'[|log|] == f;
    forall name | Slot(tier, path, name) in history
      ensures exists k :: 0 <= k < |log'| && NameOf(log'[k].written) == name
    {
      var k :| 0 <= k < |log| && NameOf(log[k].written) == name;
      assert log'[k] == log[k];
    }
  }

  /** Through any run, each history directory holds the blobs filed there, each under its own name. */
  lemma {:induction false} HistoryIsTheLog(events: seq<Event>, tier: Tier, path: Path)
    ensures Holds(Ran(events).history, tier, path, Log(events, tier, path))
  {
    if events != [] {
      var front, e := events[..|events| - 1], events[|events| - 1];
      var s := Ran(front);
      HistoryIsTheLog(front, tier, path);
      StepHistory(s, e);
      if e.commits && KeepsOld(s, e.change) && e.change.path == path && TierOf(e.change) == tier {
        HoldsOneMore(s.history, tier, path, Log(front, tier, path),
                     Filed(Written(e.now, FirstFreeFrom(s.history, tier, path, e.now, 0)), s.live[path]));
      }
    }
  }

  lemma NextIsFirstFree(history: map<Slot, Blob>, tier: Tier, path: Path, log: seq<Filed>, now: nat)
    requires Holds(history, tier, path, log) && now < U64 && |history| < U64
    requires forall k :: 0 <= k < |log| ==> log[k].written.now < U64 && log[k].written.nth < U64
    ensures FirstFree(WrittenOf(log), Written(now, FirstFreeFrom(history, tier, path, now, 0)))
  {
    var n := FirstFreeFrom(history, tier, path, now, 0);
    forall j: nat | j < n ensures Written(now, j) in WrittenOf(log) {
      assert Taken(history, tier, path, now, j);
      var k :| 0 <= k < |log| && NameOf(log[k].written) == Name(now, j);
      NameReadsBack(now, j);
      NameReadsBack(log[k].written.now, log[k].written.nth);
      assert WrittenOf(log)[k] == Written(now, j);
    }
  }

  /** The log of a run so far is one, and none of its entries is later than `now`. */
  ghost predicate IsLogUntil(log: seq<Filed>, now: nat) {
    IsLog(WrittenOf(log)) && forall w :: w in WrittenOf(log) ==> w.now <= now
  }

  lemma {:induction false} LogIsOrdered(events: seq<Event>, tier: Tier, path: Path)
    requires ClockAdvances(events) && |events| < U64
    ensures IsLogUntil(Log(events, tier, path), if events == [] then 0 else events[|events| - 1].now)
  {
    if events != [] {
      var front, e := events[..|events| - 1], events[|events| - 1];
      LogIsOrdered(front, tier, path);
      assert IsLogUntil(Log(front, tier, path), e.now);
      if Log(events, tier, path) != Log(front, tier, path) {
        FiledIsLater(front, e, tier, path);
      }
    }
  }

  lemma FiledIsLater(front: seq<Event>, e: Event, tier: Tier, path: Path)
    requires |front| < U64 && e.now < U64 && IsLogUntil(Log(front, tier, path), e.now)
    ensures var name := FirstFreeFrom(Ran(front).history, tier, path, e.now, 0);
            forall f: Filed :: f.written == Written(e.now, name) ==> IsLogUntil(Log(front, tier, path) + [f], e.now)
  {
    var s, log := Ran(front), Log(front, tier, path);
    var w := Written(e.now, FirstFreeFrom(s.history, tier, path, e.now, 0));
    HistoryFits(front);
    HistoryIsTheLog(front, tier, path);
    NextIsFirstFree(s.history, tier, path, log, e.now);
    LogGrows(WrittenOf(log), w);
    forall f: Filed | f.written == w ensures IsLogUntil(log + [f], e.now) {
      assert WrittenOf(log + [f]) == WrittenOf(log) + [w];
    }
  }

  lemma LogGrows(log: seq<Written>, w: Written)
    requires IsLog(log) && FirstFree(log, w) && w.now < U64 && w.nth < U64
    requires forall x :: x in log ==> x.now <= w.now
    ensures IsLog(log + [w])
  {
    var log' := log + [w];
    assert log'[..|log|] == log;
    assert forall i :: 0 <= i < |log| ==> log'[..i] == log[..i] && log'[i] == log[i];
    assert forall i :: 0 <= i < |log| ==> log[i] in log;
  }

  /**
   * In any run of committed and rolled-back changes with a clock that never goes back, whatever
   * order the directory yields its entries in, the listing is the log backwards.
   */
  lemma RunListsReverseChronologically(events: seq<Event>, tier: Tier, path: Path, entries: seq<string>)
    requires ClockAdvances(events) && |events| < U64
    requires Distinct(entries) && forall name :: name in entries <==> Slot(tier, path, name) in Ran(events).history
    ensures ListHistory(entries) == Reversed(NamesOf(WrittenOf(Log(events, tier, path))))
  {
    var log := WrittenOf(Log(events, tier, path));
    LogIsOrdered(events, tier, path);
    HistoryIsTheLog(events, tier, path);
    LogNamesDistinct(log);
    forall name ensures name in entries <==> name in NamesOf(log) {
      LogHasName(Ran(events).history, tier, path, Log(events, tier, path), name);
    }
    SameWhenDistinct(entries, NamesOf(log));
    ListsReverseChronologically(log, entries);
  }

  lemma LogHasName(history: map<Slot, Blob>, tier: Tier, path: Path, log: seq<Filed>, name: string)
    requires Holds(history, tier, path, log)
    ensures Slot(tier, path, name) in history <==> name in NamesOf(WrittenOf(log))
  {
    var names := NamesOf(WrittenOf(log));
    assert forall k :: 0 <= k < |log| ==> names[k] == NameOf(log[k].written);
    if Slot(tier, path, name) in history {
      var k :| 0 <= k < |log| && NameOf(log[k].written) == name;
      assert names[k] == name;
    }
  }

  /** Every name a run files under may be asked for again, while a directory's attempt counter fits 32 bits. */
  lemma {:induction false} FiledNamesAreValid(events: seq<Event>, slot: Slot)
    requires ClockAdvances(events) && |events| < 0x8000_0000 && slot in Ran(events).history
    ensures ValidHistoryName(slot.name)
  {
    var front, e := events[..|events| - 1], events[|events| - 1];
    StepHistory(Ran(front), e);
    HistoryFits(front);
    if slot in Ran(front).history {
      FiledNamesAreValid(front, slot);
    } else {
      WrittenNamesAreValid(e.now, FirstFreeFrom(Ran(front).history, TierOf(e.change), e.change.path, e.now, 0));
    }
  }
}
