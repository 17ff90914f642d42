/** `reconcile` of `ios/DB/ItemStore.swift`: mirroring the vault directory into the item table. */
module Reconciling {
  import opened Types
  import opened ItemRows
  import opened Items
  import opened ChangeFeed

  /** What the scan says about one path. */
  datatype Scanned = Scanned(filename: string, isDirectory: bool, size: Option<nat>, modified: int)

  type Disk = map<Path, Scanned>

  /** The path without its last component. */
  function Stem(p: Path): (s: Path)
    ensures p != "" ==> |s| < |p|
  {
    if p == "" then ""
    else if p[|p| - 1] == '/' then p[..|p| - 1]
    else Stem(p[..|p| - 1])
  }

  // ---- The row each path is matched with --------------------------------------------------

  /** One row per path: a live one where there is one, else a tombstone. */
  ghost predicate Chosen(rows: Rows, existing: map<Path, Id>) {
    && (forall p :: p in existing ==> existing[p] in rows && rows[existing[p]].path == p)
    && (forall id :: id in rows ==> rows[id].path in existing)
    && (forall id :: Live(rows, id) && rows[id].path in existing ==> Live(rows, existing[rows[id].path]))
  }

  predicate Stale(rows: Rows, existing: map<Path, Id>, id: Id)
    requires id in rows
  {
    rows[id].isDeleted && Get(existing, rows[id].path) != Some(id)
  }

  /** The table without the tombstones that lost to another row of their path. */
  function Kept(rows: Rows, existing: map<Path, Id>): Rows {
    map id | id in rows && !Stale(rows, existing, id) :: rows[id]
  }

  /** A path's identifier: the one it is matched with, or the UUID minted for it. */
  function IdAt(existing: map<Path, Id>, mint: Path -> Id, p: Path): Id {
    if p in existing then existing[p] else mint(p)
  }

  function ParentId(existing: map<Path, Id>, mint: Path -> Id, disk: Disk, p: Path): Id {
    if Stem(p) != "" && Stem(p) in disk then IdAt(existing, mint, Stem(p)) else ""
  }

  predicate Fits(row: Row, e: Scanned, parent: Id) {
    && !row.isDeleted && row.size == e.size && row.modified == e.modified && row.isDirectory == e.isDirectory
    && row.parent == parent && row.filename == e.filename
  }

  function Filled(row: Row, e: Scanned, parent: Id, version: nat): Row {
    row.(isDeleted := false, filename := e.filename, isDirectory := e.isDirectory, size := e.size,
         modified := e.modified, parent := parent, version := version)
  }

  function Upserted(row: Option<Row>, p: Path, e: Scanned, parent: Id, version: nat): Row {
    if row.None? then Row(parent, e.filename, p, e.isDirectory, e.size, e.modified, false, false, false, version)
    else if Fits(row.value, e, parent) then row.value
    else Filled(row.value, e, parent, version)
  }

  // ---- The whole pass ---------------------------------------------------------------------

  ghost predicate Minted(rows: Rows, mint: Path -> Id) {
    && (forall p :: mint(p) !in rows)
    && (forall p, q :: mint(p) == mint(q) ==> p == q)
  }

  /** The row a scanned path should have: its match brought up to date, or a new one. */
  ghost predicate IsRowFor(kept: Rows, existing: map<Path, Id>, mint: Path -> Id, disk: Disk, p: Path, row: Row)
    requires p in disk
  {
    var was := Get(kept, IdAt(existing, mint, p));
    && row == Upserted(was, p, disk[p], ParentId(existing, mint, disk, p), row.version)
    && (was == Some(row) || row.version > MaxOf(kept))
  }

  ghost predicate RowIsRight(kept: Rows, existing: map<Path, Id>, mint: Path -> Id, disk: Disk, rows: Rows, p: Path)
    requires p in disk
  {
    var id := IdAt(existing, mint, p);
    id in rows && IsRowFor(kept, existing, mint, disk, p, rows[id])
  }

  /** A kept row the scan did not reach: tombstoned, unless it is pending, gone already, or not its path's match. */
  ghost predicate LeftoverIsRight(kept: Rows, existing: map<Path, Id>, rows: Rows, id: Id)
    requires id in kept
  {
    var was := kept[id];
    && id in rows
    && if Get(existing, was.path) == Some(id) && !was.pendingUpload && !was.pendingDeletion && !was.isDeleted
       then rows[id] == was.(isDeleted := true, version := rows[id].version) && rows[id].version > MaxOf(kept)
       else rows[id] == was
  }

  predicate IsMatch(kept: Rows, existing: map<Path, Id>, disk: Disk, id: Id)
    requires id in kept
  {
    kept[id].path in disk && Get(existing, kept[id].path) == Some(id)
  }

  ghost predicate Outcome(before: Rows, existing: map<Path, Id>, mint: Path -> Id, disk: Disk, after: Rows) {
    var kept := Kept(before, existing);
    && (forall p :: p in disk ==> RowIsRight(kept, existing, mint, disk, after, p))
    && (forall id :: id in kept && !IsMatch(kept, existing, disk, id) ==> LeftoverIsRight(kept, existing, after, id))
    && NothingElse(kept, existing, mint, disk, {}, after)
  }

  // ---- The pass, step by step -------------------------------------------------------------

  /** The dictionary of rows by path: a tombstone gives way to whatever comes after it. */
  method MatchPaths(rows: Rows) returns (existing: map<Path, Id>)
    ensures Chosen(rows, existing)
  {
    existing := map[];
    var todo := rows.Keys;
    while todo != {}
      invariant todo <= rows.Keys
      invariant Chosen(Without(rows, todo), existing)
      decreases todo
    {
      var id :| id in todo;
      MatchedOneMore(rows, todo, existing, id);
      if rows[id].path !in existing || rows[existing[rows[id].path]].isDeleted {
        existing := existing[rows[id].path := id];
      }
      todo := todo - {id};
    }
    assert Without(rows, {}) == rows;
  }

  ghost function Without(rows: Rows, todo: set<Id>): Rows {
    map id | id in rows && id !in todo :: rows[id]
  }

  lemma MatchedOneMore(rows: Rows, todo: set<Id>, existing: map<Path, Id>, id: Id)
    requires id in todo && id in rows && Chosen(Without(rows, todo), existing)
    ensures var p := rows[id].path;
            && (p in existing ==> existing[p] in rows)
            && Chosen(Without(rows, todo - {id}),
                      if p !in existing || rows[existing[p]].isDeleted then existing[p := id] else existing)
  {
    assert Without(rows, todo - {id}) == Without(rows, todo)[id := rows[id]];
    AddedToMatch(Without(rows, todo), existing, id, rows[id]);
  }

  lemma AddedToMatch(seen: Rows, existing: map<Path, Id>, id: Id, row: Row)
    requires Chosen(seen, existing) && id !in seen
    ensures Chosen(seen[id := row],
                   if row.path !in existing || seen[existing[row.path]].isDeleted then existing[row.path := id]
                   else existing)
  {
  }

  method ShortestPath(todo: set<Path>) returns (p: Path)
    requires todo != {}
    ensures p in todo && forall q :: q in todo ==> |p| <= |q|
  {
    p :| p in todo;
    var rest := todo - {p};
    while rest != {}
      invariant rest <= todo && p in todo
      invariant forall q :: q in todo && q !in rest ==> |p| <= |q|
      decreases rest
    {
      var q :| q in rest;
      rest := rest - {q};
      if |q| < |p| {
        p := q;
      }
    }
  }

  /** Every version given out so far, and distinct if they were. */
  ghost predicate Counted(kept: Rows, rows: Rows, next: nat) {
    && next > MaxOf(kept)
    && (forall id :: id in rows ==> rows[id].version < next)
    && (VersionsApart(kept) ==> VersionsApart(rows))
  }

  ghost predicate ScanDone(kept: Rows, existing: map<Path, Id>, mint: Path -> Id, disk: Disk, todo: set<Path>,
                           rows: Rows) {
    forall p :: p in disk && p !in todo ==> RowIsRight(kept, existing, mint, disk, rows, p)
  }

  ghost predicate RestAsItWas(kept: Rows, existing: map<Path, Id>, disk: Disk, todo: set<Path>, rows: Rows) {
    forall id :: id in kept && (!IsMatch(kept, existing, disk, id) || kept[id].path in todo) ==>
          Get(rows, id) == Some(kept[id])
  }

  ghost predicate IsNew(existing: map<Path, Id>, mint: Path -> Id, disk: Disk, todo: set<Path>, id: Id) {
    exists p :: p in disk && p !in todo && p !in existing && mint(p) == id
  }

  ghost predicate NothingElse(kept: Rows, existing: map<Path, Id>, mint: Path -> Id, disk: Disk, todo: set<Path>,
                              rows: Rows) {
    forall id :: id in rows ==> id in kept || IsNew(existing, mint, disk, todo, id)
  }

  /** Scanned paths outside `todo` are done; every other kept row is as it was. */
  ghost predicate HalfScanned(kept: Rows, existing: map<Path, Id>, mint: Path -> Id, disk: Disk, todo: set<Path>,
                              rows: Rows) {
    && ScanDone(kept, existing, mint, disk, todo, rows)
    && RestAsItWas(kept, existing, disk, todo, rows)
    && NothingElse(kept, existing, mint, disk, todo, rows)
  }

  ghost predicate Matches(kept: Rows, existing: map<Path, Id>, mint: Path -> Id) {
    && (forall p :: p in existing ==> existing[p] in kept && kept[existing[p]].path == p)
    && (forall id :: id in kept ==> kept[id].path in existing)
    && Minted(kept, mint)
  }

  lemma KeptMatches(rows: Rows, existing: map<Path, Id>, mint: Path -> Id)
    requires Chosen(rows, existing) && Minted(rows, mint)
    ensures Matches(Kept(rows, existing), existing, mint)
  {
  }

  lemma IdsApart(kept: Rows, existing: map<Path, Id>, mint: Path -> Id, p: Path, q: Path)
    requires Matches(kept, existing, mint) && p != q
    ensures IdAt(existing, mint, p) != IdAt(existing, mint, q)
  {
  }

  lemma ScanDoneOneMore(kept: Rows, existing: map<Path, Id>, mint: Path -> Id, disk: Disk, todo: set<Path>, rows: Rows,
                        p: Path, row: Row)
    requires Matches(kept, existing, mint) && ScanDone(kept, existing, mint, disk, todo, rows)
    requires p in todo && p in disk && IsRowFor(kept, existing, mint, disk, p, row)
    ensures ScanDone(kept, existing, mint, disk, todo - {p}, rows[IdAt(existing, mint, p) := row])
  {
    var rows' := rows[IdAt(existing, mint, p) := row];
    forall q | q in disk && q !in todo - {p} ensures RowIsRight(kept, existing, mint, disk, rows', q) {
      if q != p {
        IdsApart(kept, existing, mint, p, q);
        assert RowIsRight(kept, existing, mint, disk, rows, q);
      }
    }
  }

  lemma RestOneMore(kept: Rows, existing: map<Path, Id>, mint: Path -> Id, disk: Disk, todo: set<Path>, rows: Rows,
                    p: Path, row: Row)
    requires Matches(kept, existing, mint) && RestAsItWas(kept, existing, disk, todo, rows) && p in disk
    ensures RestAsItWas(kept, existing, disk, todo - {p}, rows[IdAt(existing, mint, p) := row])
  {
  }

  lemma NothingElseOneMore(kept: Rows, existing: map<Path, Id>, mint: Path -> Id, disk: Disk, todo: set<Path>,
                           rows: Rows, p: Path, row: Row)
    requires Matches(kept, existing, mint) && NothingElse(kept, existing, mint, disk, todo, rows) && p in disk
    ensures NothingElse(kept, existing, mint, disk, todo - {p}, rows[IdAt(existing, mint, p) := row])
  {
    var id := IdAt(existing, mint, p);
    forall i | (i in rows || i == id) && i !in kept ensures IsNew(existing, mint, disk, todo - {p}, i) {
      if i != id {
        var q :| q in disk && q !in todo && q !in existing && mint(q) == i;
        assert q !in todo - {p};
      } else {
        assert p !in todo - {p};
      }
    }
  }

  lemma ScannedOneMore(kept: Rows, existing: map<Path, Id>, mint: Path -> Id, disk: Disk, todo: set<Path>, rows: Rows,
                       p: Path, row: Row)
    requires Matches(kept, existing, mint) && HalfScanned(kept, existing, mint, disk, todo, rows)
    requires p in todo && p in disk && IsRowFor(kept, existing, mint, disk, p, row)
    ensures HalfScanned(kept, existing, mint, disk, todo - {p}, rows[IdAt(existing, mint, p) := row])
  {
    ScanDoneOneMore(kept, existing, mint, disk, todo, rows, p, row);
    RestOneMore(kept, existing, mint, disk, todo, rows, p, row);
    NothingElseOneMore(kept, existing, mint, disk, todo, rows, p, row);
  }

  lemma CountedOneMore(kept: Rows, rows: Rows, next: nat, id: Id, row: Row)
    requires Counted(kept, rows, next) && row.version == next
    ensures Counted(kept, rows[id := row], next + 1)
  {
  }

  /** `upsertEntry`: writes the path's row unless it fits already. */
  method UpsertEntry(store: ItemStore, p: Path, e: Scanned, parent: Id, known: Option<Id>, minted: Id, next: nat)
    returns (id: Id, next': nat)
    requires known.Some? ==> known.value in store.rows
    modifies store
    ensures id == if known.Some? then known.value else minted
    ensures var was := if known.Some? then Get(old(store.rows), id) else None;
            store.rows == old(store.rows)[id := Upserted(was, p, e, parent, next)] &&
            next' == if was.Some? && Fits(was.value, e, parent) then next else next + 1
  {
    if known.Some? {
      id := known.value;
      var row := store.rows[id];
      if Fits(row, e, parent) {
        next' := next;
      } else {
        store.rows := store.rows[id := Filled(row, e, parent, next)];
        next' := next + 1;
      }
    } else {
      id := minted;
      var row := Row(parent, e.filename, p, e.isDirectory, e.size, e.modified, false, false, false, next);
      store.rows := store.rows[id := row];
      next' := next + 1;
    }
  }

  lemma UpsertIsRight(kept: Rows, existing: map<Path, Id>, mint: Path -> Id, disk: Disk, rows: Rows, p: Path, next: nat)
    requires Matches(kept, existing, mint) && p in disk && Counted(kept, rows, next)
    ensures var was := Get(kept, IdAt(existing, mint, p));
            IsRowFor(kept, existing, mint, disk, p, Upserted(was, p, disk[p], ParentId(existing, mint, disk, p), next))
  {
  }

  lemma UpsertIsCounted(kept: Rows, rows: Rows, id: Id, p: Path, e: Scanned, parent: Id, next: nat)
    requires Counted(kept, rows, next)
    ensures var was := Get(rows, id); var row := Upserted(was, p, e, parent, next);
            Counted(kept, rows[id := row], if was.Some? && Fits(was.value, e, parent) then next else next + 1)
  {
    var was := Get(rows, id);
    if was.Some? && Fits(was.value, e, parent) {
      assert rows[id := was.value] == rows;
    } else {
      CountedOneMore(kept, rows, next, id, Upserted(was, p, e, parent, next));
    }
  }

  lemma NotYetTouched(kept: Rows, existing: map<Path, Id>, mint: Path -> Id, disk: Disk, todo: set<Path>, rows: Rows,
                      p: Path)
    requires Matches(kept, existing, mint) && HalfScanned(kept, existing, mint, disk, todo, rows) && p in todo &&
             p in disk
    ensures Get(rows, IdAt(existing, mint, p)) == Get(kept, IdAt(existing, mint, p))
    ensures p !in existing ==> Get(kept, IdAt(existing, mint, p)) == None
  {
  }

  ghost predicate Scanning(kept: Rows, existing: map<Path, Id>, mint: Path -> Id, disk: Disk, todo: set<Path>,
                           rows: Rows, next: nat) {
    HalfScanned(kept, existing, mint, disk, todo, rows) && Counted(kept, rows, next)
  }

  lemma ScanStep(kept: Rows, existing: map<Path, Id>, mint: Path -> Id, disk: Disk, todo: set<Path>, rows: Rows,
                 next: nat, p: Path)
    requires Matches(kept, existing, mint) && Scanning(kept, existing, mint, disk, todo, rows, next) && p in todo &&
             p in disk
    ensures var id, parent := IdAt(existing, mint, p), ParentId(existing, mint, disk, p);
            var was := Get(rows, id);
            && (was.Some? <==> p in existing)
            && Scanning(kept, existing, mint, disk, todo - {p}, rows[id := Upserted(was, p, disk[p], parent, next)],
                        if was.Some? && Fits(was.value, disk[p], parent) then next else next + 1)
  {
    var id, parent := IdAt(existing, mint, p), ParentId(existing, mint, disk, p);
    NotYetTouched(kept, existing, mint, disk, todo, rows, p);
    UpsertIsRight(kept, existing, mint, disk, rows, p, next);
    UpsertIsCounted(kept, rows, id, p, disk[p], parent, next);
    ScannedOneMore(kept, existing, mint, disk, todo, rows, p, Upserted(Get(kept, id), p, disk[p], parent, next));
  }

  /** The loop over the scan, parents before children. */
  method UpsertAll(store: ItemStore, existing: map<Path, Id>, mint: Path -> Id, disk: Disk, first: nat)
    returns (next: nat)
    requires Matches(store.rows, existing, mint) &&
             Scanning(store.rows, existing, mint, disk, disk.Keys, store.rows, first)
    modifies store
    ensures Scanning(old(store.rows), existing, mint, disk, {}, store.rows, next)
  {
    ghost var kept := store.rows;
    var todo, pathToUUID: map<Path, Id> := disk.Keys, map[];
    next := first;
    while todo != {}
      invariant todo <= disk.Keys
      invariant Named(pathToUUID, existing, mint, disk, todo)
      invariant Scanning(kept, existing, mint, disk, todo, store.rows, next)
      decreases todo
    {
      var p := ShortestPath(todo);
      var id;
      id, next := UpsertNext(store, existing, mint, disk, kept, todo, p, pathToUUID, next);
      NamedOneMore(pathToUUID, existing, mint, disk, todo, p);
      todo := todo - {p};
      pathToUUID := pathToUUID[p := id];
    }
  }

  /** The identifiers of the scanned paths outside `todo`. */
  ghost predicate Named(pathToUUID: map<Path, Id>, existing: map<Path, Id>, mint: Path -> Id, disk: Disk,
                        todo: set<Path>) {
    forall p :: Get(pathToUUID, p) == if p in disk && p !in todo then Some(IdAt(existing, mint, p)) else None
  }

  lemma NamedOneMore(pathToUUID: map<Path, Id>, existing: map<Path, Id>, mint: Path -> Id, disk: Disk, todo: set<Path>,
                     p: Path)
    requires Named(pathToUUID, existing, mint, disk, todo) && p in todo && p in disk
    ensures Named(pathToUUID[p := IdAt(existing, mint, p)], existing, mint, disk, todo - {p})
  {
    var after := pathToUUID[p := IdAt(existing, mint, p)];
    forall q ensures Get(after, q) == if q in disk && q !in todo - {p} then Some(IdAt(existing, mint, q)) else None {
      assert q != p ==> Get(after, q) == Get(pathToUUID, q);
    }
  }

  /** The parent of the shortest path to do has been named already, if it was scanned. */
  lemma ParentIsNamed(pathToUUID: map<Path, Id>, existing: map<Path, Id>, mint: Path -> Id, disk: Disk,
                      todo: set<Path>, p: Path)
    requires Named(pathToUUID, existing, mint, disk, todo) && p in todo && forall q :: q in todo ==> |p| <= |q|
    ensures ParentId(existing, mint, disk, p) ==
              if Stem(p) != "" && Stem(p) in pathToUUID then pathToUUID[Stem(p)] else ""
  {
    var stem := Stem(p);
    assert Get(pathToUUID, stem) == if stem in disk && stem !in todo then Some(IdAt(existing, mint, stem)) else None;
    assert stem != "" ==> p != "" && stem !in todo;
  }

  method UpsertNext(store: ItemStore, existing: map<Path, Id>, mint: Path -> Id, disk: Disk, ghost kept: Rows,
                    ghost todo: set<Path>, p: Path, pathToUUID: map<Path, Id>, next: nat)
    returns (id: Id, next': nat)
    requires Matches(kept, existing, mint) && Scanning(kept, existing, mint, disk, todo, store.rows, next) &&
             p in todo && p in disk
    requires Named(pathToUUID, existing, mint, disk, todo) && forall q :: q in todo ==> |p| <= |q|
    modifies store
    ensures id == IdAt(existing, mint, p) && Scanning(kept, existing, mint, disk, todo - {p}, store.rows, next')
  {
    ParentIsNamed(pathToUUID, existing, mint, disk, todo, p);
    ScanStep(kept, existing, mint, disk, todo, store.rows, next, p);
    var parent := if Stem(p) != "" && Stem(p) in pathToUUID then pathToUUID[Stem(p)] else "";
    id, next' := UpsertEntry(store, p, disk[p], parent, Get(existing, p), mint(p), next);
  }

  lemma StartScan(kept: Rows, existing: map<Path, Id>, mint: Path -> Id, disk: Disk)
    ensures Scanning(kept, existing, mint, disk, disk.Keys, kept, MaxOf(kept) + 1)
  {
  }

  /** Unscanned paths outside `todo` are done; the scanned rows stay as the loop before left them. */
  ghost predicate HalfBuried(kept: Rows, existing: map<Path, Id>, disk: Disk, mid: Rows, todo: set<Path>, rows: Rows) {
    && rows.Keys == mid.Keys
    && (forall id :: id in mid && (id in kept ==> IsMatch(kept, existing, disk, id)) ==> rows[id] == mid[id])
    && (forall id :: id in kept && !IsMatch(kept, existing, disk, id) ==>
          if kept[id].path in todo then Get(rows, id) == Some(kept[id]) else LeftoverIsRight(kept, existing, rows, id))
  }

  lemma BuriedOneMore(kept: Rows, existing: map<Path, Id>, disk: Disk, mid: Rows, todo: set<Path>, rows: Rows, p: Path,
                      row: Row)
    requires HalfBuried(kept, existing, disk, mid, todo, rows) && p in todo && p in existing && p !in disk
    requires existing[p] in kept && kept[existing[p]].path == p
    requires var was := kept[existing[p]];
             if !was.pendingUpload && !was.pendingDeletion && !was.isDeleted
             then row == was.(isDeleted := true, version := row.version) && row.version > MaxOf(kept) else row == was
    ensures HalfBuried(kept, existing, disk, mid, todo - {p}, rows[existing[p] := row])
  {
    var id := existing[p];
    assert !IsMatch(kept, existing, disk, id) && id in rows;
    var rows' := rows[id := row];
    forall i | i in kept && !IsMatch(kept, existing, disk, i)
      ensures if kept[i].path in todo - {p} then Get(rows', i) == Some(kept[i])
              else LeftoverIsRight(kept, existing, rows', i)
    {
      if i != id && kept[i].path !in todo {
        assert LeftoverIsRight(kept, existing, rows, i);
      }
    }
  }

  ghost predicate Burying(kept: Rows, existing: map<Path, Id>, disk: Disk, mid: Rows, todo: set<Path>, rows: Rows,
                          next: nat) {
    HalfBuried(kept, existing, disk, mid, todo, rows) && Counted(kept, rows, next)
  }

  lemma BuryStep(kept: Rows, existing: map<Path, Id>, disk: Disk, mid: Rows, todo: set<Path>, rows: Rows, next: nat,
                 p: Path)
    requires Burying(kept, existing, disk, mid, todo, rows, next) && p in todo && p in existing && p !in disk
    requires existing[p] in kept && kept[existing[p]].path == p
    ensures var id := existing[p];
            && id in rows
            && (var row := rows[id];
                if !row.pendingUpload && !row.pendingDeletion && !row.isDeleted
                then Burying(kept, existing, disk, mid, todo - {p},
                             rows[id := row.(isDeleted := true, version := next)], next + 1)
                else Burying(kept, existing, disk, mid, todo - {p}, rows, next))
  {
    var id := existing[p];
    assert !IsMatch(kept, existing, disk, id) && Get(rows, id) == Some(kept[id]);
    var row := rows[id];
    var buried := row.(isDeleted := true, version := next);
    if !row.pendingUpload && !row.pendingDeletion && !row.isDeleted {
      CountedOneMore(kept, rows, next, id, buried);
      BuriedOneMore(kept, existing, disk, mid, todo, rows, p, buried);
    } else {
      BuriedOneMore(kept, existing, disk, mid, todo, rows, p, row);
      assert rows[id := row] == rows;
    }
  }

  /** The loop that tombstones what is no longer on disk. */
  method TombstoneRest(store: ItemStore, existing: map<Path, Id>, disk: Disk, ghost kept: Rows, first: nat)
    returns (next: nat)
    requires Burying(kept, existing, disk, store.rows, existing.Keys - disk.Keys, store.rows, first)
    requires forall p :: p in existing ==> existing[p] in kept && kept[existing[p]].path == p
    modifies store
    ensures Burying(kept, existing, disk, old(store.rows), {}, store.rows, next)
  {
    ghost var mid := store.rows;
    var todo := existing.Keys - disk.Keys;
    next := first;
    while todo != {}
      invariant todo <= existing.Keys - disk.Keys
      invariant Burying(kept, existing, disk, mid, todo, store.rows, next)
      decreases todo
    {
      var p :| p in todo;
      BuryStep(kept, existing, disk, mid, todo, store.rows, next, p);
      var row := store.rows[existing[p]];
      if !row.pendingUpload && !row.pendingDeletion && !row.isDeleted {
        store.rows := store.rows[existing[p] := row.(isDeleted := true, version := next)];
        next := next + 1;
      }
      todo := todo - {p};
    }
  }

  lemma StartBuried(kept: Rows, existing: map<Path, Id>, mint: Path -> Id, disk: Disk, rows: Rows)
    requires Matches(kept, existing, mint) && HalfScanned(kept, existing, mint, disk, {}, rows)
    ensures HalfBuried(kept, existing, disk, rows, existing.Keys - disk.Keys, rows)
  {
    forall id | id in kept && !IsMatch(kept, existing, disk, id)
      ensures Get(rows, id) == Some(kept[id]) && kept[id].path in existing
    {
    }
  }

  lemma PassIsDone(before: Rows, existing: map<Path, Id>, mint: Path -> Id, disk: Disk, mid: Rows, after: Rows)
    requires Matches(Kept(before, existing), existing, mint)
    requires HalfScanned(Kept(before, existing), existing, mint, disk, {}, mid)
    requires HalfBuried(Kept(before, existing), existing, disk, mid, {}, after)
    ensures Outcome(before, existing, mint, disk, after)
  {
    var kept := Kept(before, existing);
    forall p | p in disk ensures RowIsRight(kept, existing, mint, disk, after, p) {
      assert RowIsRight(kept, existing, mint, disk, mid, p);
      var id := IdAt(existing, mint, p);
      assert id in kept ==> IsMatch(kept, existing, disk, id);
    }
  }

  /** `reconcile`: mirror the scanned directory into the table. */
  method Reconcile(store: ItemStore, disk: Disk, mint: Path -> Id) returns (existing: map<Path, Id>)
    requires Minted(store.rows, mint)
    modifies store
    ensures Chosen(old(store.rows), existing) && Outcome(old(store.rows), existing, mint, disk, store.rows)
    ensures VersionsApart(old(store.rows)) ==> VersionsApart(store.rows)
  {
    ghost var before := store.rows;
    existing := MatchPaths(store.rows);
    KeptMatches(before, existing, mint);
    ApartKept(before, existing);
    store.rows := Kept(store.rows, existing);
    ghost var kept := store.rows;
    var m := store.MaxRowVersion();
    StartScan(kept, existing, mint, disk);
    var next := UpsertAll(store, existing, mint, disk, m + 1);
    ghost var mid := store.rows;
    StartBuried(kept, existing, mint, disk, mid);
    next := TombstoneRest(store, existing, disk, kept, next);
    PassIsDone(before, existing, mint, disk, mid, store.rows);
  }

  lemma ApartKept(rows: Rows, existing: map<Path, Id>)
    ensures VersionsApart(rows) ==> VersionsApart(Kept(rows, existing))
  {
  }
}
