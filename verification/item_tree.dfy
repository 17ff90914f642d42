/** The tree the rows of `ios/DB/ItemStore.swift` form, through moves and folder deletions. */
module ItemTree {
  import opened Types
  import opened ItemRows
  import opened Items

  predicate NoSlash(s: string) {
    forall k :: 0 <= k < |s| ==> s[k] != '/'
  }

  /** A path that is its parent directory's path plus a filename. */
  predicate Sits(rows: Rows, parent: Id, filename: string, path: Path) {
    && NoSlash(filename)
    && if parent == "" then path == filename
       else Live(rows, parent) && rows[parent].isDirectory && path == rows[parent].path + "/" + filename
  }

  ghost predicate Rooted(rows: Rows) {
    forall id :: Live(rows, id) ==> Sits(rows, rows[id].parent, rows[id].filename, rows[id].path)
  }

  /** No two live paths are equal, or differ only in case. */
  ghost predicate PathsApart(rows: Rows) {
    forall a, b :: Live(rows, a) && Live(rows, b) && a != b ==> Fold(rows[a].path) != Fold(rows[b].path)
  }

  ghost predicate Tree(rows: Rows) {
    Rooted(rows) && PathsApart(rows)
  }

  // ---- Paths ------------------------------------------------------------------------------

  lemma FoldAppend(a: string, b: string)
    ensures Fold(a + b) == Fold(a) + Fold(b)
  {
  }

  /** What lies below a directory and is `parent/filename` has a parent that is the directory or below it. */
  lemma ParentOfUnder(directory: Path, parent: Path, filename: string)
    requires NoSlash(filename) && Under(directory, parent + "/" + filename)
    ensures Fold(parent) == Fold(directory) || Under(directory, parent)
  {
    var path := parent + "/" + filename;
    if |directory| < |parent| {
      assert path[..|directory|] == parent[..|directory|];
    } else {
      assert path[..|parent|] == parent;
    }
  }

  lemma ChildIsUnder(directory: Path, parent: Path, filename: string)
    requires Fold(parent) == Fold(directory) || Under(directory, parent)
    ensures Under(directory, parent + "/" + filename)
  {
    var path := parent + "/" + filename;
    if Under(directory, parent) {
      assert path[..|directory|] == parent[..|directory|];
    } else {
      assert |parent| == |Fold(parent)| == |directory|;
      assert path[..|directory|] == parent;
    }
  }

  /** Being below a directory does not depend on the case it is written in. */
  lemma UnderByFold(a: Path, b: Path, path: Path)
    requires Fold(a) == Fold(b)
    ensures Under(a, path) <==> Under(b, path)
  {
    assert |Fold(a)| == |a| && |Fold(b)| == |b|;
  }

  lemma UnderOfFold(directory: Path, a: Path, b: Path)
    requires Fold(a) == Fold(b) && Under(directory, a)
    ensures Under(directory, b)
  {
    var n := |directory|;
    assert |Fold(a)| == |a| && |Fold(b)| == |b|;
    assert Fold(a)[..n] == Fold(a[..n]) && Fold(b)[..n] == Fold(b[..n]);
    assert FoldChar(a[n]) == Fold(a)[n] == Fold(b)[n] == FoldChar(b[n]);
  }

  /** A live row below a directory has that directory, or a row below it, as its parent. */
  lemma UnderHasParentThere(rows: Rows, directory: Path, c: Id)
    requires Rooted(rows) && Live(rows, c) && Under(directory, rows[c].path)
    ensures var p := rows[c].parent;
            Live(rows, p) && |rows[p].path| < |rows[c].path| &&
            (Fold(rows[p].path) == Fold(directory) || Under(directory, rows[p].path))
  {
    var row := rows[c];
    assert Sits(rows, row.parent, row.filename, row.path);
    if row.parent != "" {
      ParentOfUnder(directory, rows[row.parent].path, row.filename);
    }
  }

  /** Below an unoccupied path nothing lives. */
  lemma {:induction false} AncestorAt(rows: Rows, directory: Path, c: Id) returns (a: Id)
    requires Rooted(rows) && Live(rows, c) && Under(directory, rows[c].path)
    ensures Live(rows, a) && Fold(rows[a].path) == Fold(directory)
    decreases |rows[c].path|
  {
    UnderHasParentThere(rows, directory, c);
    a := rows[c].parent;
    if Fold(rows[a].path) != Fold(directory) {
      a := AncestorAt(rows, directory, a);
    }
  }

  // ---- Moving -----------------------------------------------------------------------------

  /** A live item may be moved to a free place in the tree outside itself. */
  ghost predicate CanMove(rows: Rows, id: Id, path: Path, filename: string, parent: Id) {
    && Live(rows, id) && Sits(rows, parent, filename, path)
    && !Under(rows[id].path, path)
    && forall other :: Live(rows, other) && other != id ==> Fold(rows[other].path) != Fold(path)
  }

  predicate Follows(rows: Rows, id: Id, path: Path, i: Id)
    requires id in rows && i in rows
  {
    i != id && rows[id].isDirectory && rows[id].path != path && Under(rows[id].path, rows[i].path)
  }

  lemma RenamedRow(rows: Rows, id: Id, path: Path, filename: string, parent: Id, version: nat, i: Id)
    requires id in rows && i in rows && !Under(rows[id].path, path)
    ensures var after := Renamed(rows, id, path, filename, parent, version);
            && i in after
            && (i == id ==> after[i] == rows[i].(filename := filename, path := path, parent := parent,
                                                 version := version))
            && (i != id ==> after[i] == if Follows(rows, id, path, i)
                                        then rows[i].(path := path + rows[i].path[|rows[id].path|..])
                                        else rows[i])
  {
  }

  lemma MovedSits(rows: Rows, id: Id, path: Path, filename: string, parent: Id, version: nat, i: Id)
    requires Tree(rows) && CanMove(rows, id, path, filename, parent) && Live(rows, i) && i != id
    ensures var after := Renamed(rows, id, path, filename, parent, version);
            Sits(after, after[i].parent, after[i].filename, after[i].path)
  {
    var row, from := rows[i], rows[id].path;
    var p := row.parent;
    RenamedRow(rows, id, path, filename, parent, version, i);
    assert Sits(rows, p, row.filename, row.path);
    if Under(from, row.path) {
      UnderHasParentThere(rows, from, i);
    }
    if p != "" {
      RenamedRow(rows, id, path, filename, parent, version, p);
      if p == id || Under(from, rows[p].path) {
        ChildIsUnder(from, rows[p].path, row.filename);
      }
      if Follows(rows, id, path, i) {
        SuffixMoves(from, path, rows[p].path, row.filename);
      }
    }
  }

  lemma SuffixMoves(from: Path, path: Path, parent: Path, filename: string)
    requires |parent| >= |from|
    ensures path + (parent + "/" + filename)[|from|..] == path + parent[|from|..] + "/" + filename
    ensures parent == from ==> path + parent[|from|..] == path
  {
  }

  lemma TargetSits(rows: Rows, id: Id, path: Path, filename: string, parent: Id, version: nat)
    requires Tree(rows) && CanMove(rows, id, path, filename, parent)
    ensures var after := Renamed(rows, id, path, filename, parent, version);
            Sits(after, parent, filename, path)
  {
    if parent != "" {
      RenamedRow(rows, id, path, filename, parent, version, parent);
      if parent == id || Under(rows[id].path, rows[parent].path) {
        ChildIsUnder(rows[id].path, rows[parent].path, filename);
      }
    }
  }

  /** A row that follows the move lands clear of every row that stays. */
  lemma FollowerLandsFree(rows: Rows, id: Id, path: Path, filename: string, parent: Id, i: Id, other: Id)
    requires Tree(rows) && CanMove(rows, id, path, filename, parent) && Live(rows, i) && Live(rows, other)
    requires Follows(rows, id, path, i) && other != id && !Follows(rows, id, path, other)
    ensures Fold(path + rows[i].path[|rows[id].path|..]) != Fold(rows[other].path)
  {
    var from := rows[id].path;
    var landed := path + rows[i].path[|from|..];
    if Fold(landed) == Fold(rows[other].path) {
      assert landed[..|path|] == path;
      UnderOfFold(path, landed, rows[other].path);
      var a := AncestorAt(rows, path, other);
      UnderByFold(from, path, rows[other].path);
    }
  }

  lemma SuffixesApart(path: Path, a: Path, b: Path, n: nat)
    requires n <= |a| && n <= |b| && Fold(a[..n]) == Fold(b[..n]) && Fold(a) != Fold(b)
    ensures Fold(path + a[n..]) != Fold(path + b[n..])
  {
    FoldAppend(a[..n], a[n..]);
    FoldAppend(b[..n], b[n..]);
    assert a == a[..n] + a[n..] && b == b[..n] + b[n..];
    FoldAppend(path, a[n..]);
    FoldAppend(path, b[n..]);
    assert (Fold(path) + Fold(a[n..]))[|path|..] == Fold(a[n..]);
    assert (Fold(path) + Fold(b[n..]))[|path|..] == Fold(b[n..]);
  }

  /** Two rows that follow the move stay apart. */
  lemma FollowersApart(rows: Rows, id: Id, path: Path, i: Id, j: Id)
    requires Tree(rows) && Live(rows, id) && Live(rows, i) && Live(rows, j) && i != j
    requires Follows(rows, id, path, i) && Follows(rows, id, path, j)
    ensures Fold(path + rows[i].path[|rows[id].path|..]) != Fold(path + rows[j].path[|rows[id].path|..])
  {
    SuffixesApart(path, rows[i].path, rows[j].path, |rows[id].path|);
  }

  lemma MovedApart(rows: Rows, id: Id, path: Path, filename: string, parent: Id, version: nat, i: Id, j: Id)
    requires Tree(rows) && CanMove(rows, id, path, filename, parent)
    requires Live(rows, i) && Live(rows, j) && i != j && j != id &&
             (Follows(rows, id, path, j) ==> i == id || Follows(rows, id, path, i))
    ensures var after := Renamed(rows, id, path, filename, parent, version);
            Fold(after[i].path) != Fold(after[j].path)
  {
    RenamedRow(rows, id, path, filename, parent, version, i);
    RenamedRow(rows, id, path, filename, parent, version, j);
    if i == id {
      if Follows(rows, id, path, j) {
        assert |Fold(path)| < |Fold(path + rows[j].path[|rows[id].path|..])|;
      }
    } else if Follows(rows, id, path, j) {
      FollowersApart(rows, id, path, i, j);
    } else if Follows(rows, id, path, i) {
      FollowerLandsFree(rows, id, path, filename, parent, i, j);
    }
  }

  /** Moving a live item to a free place outside itself keeps the tree. */
  lemma MoveKeepsTree(rows: Rows, id: Id, path: Path, filename: string, parent: Id, version: nat)
    requires Tree(rows) && CanMove(rows, id, path, filename, parent)
    ensures Tree(Renamed(rows, id, path, filename, parent, version))
  {
    var after := Renamed(rows, id, path, filename, parent, version);
    forall i | Live(after, i) ensures Sits(after, after[i].parent, after[i].filename, after[i].path) {
      RenamedRow(rows, id, path, filename, parent, version, i);
      if i == id {
        TargetSits(rows, id, path, filename, parent, version);
      } else {
        MovedSits(rows, id, path, filename, parent, version, i);
      }
    }
    forall i, j | Live(after, i) && Live(after, j) && i != j ensures Fold(after[i].path) != Fold(after[j].path) {
      RenamedRow(rows, id, path, filename, parent, version, i);
      RenamedRow(rows, id, path, filename, parent, version, j);
      if j != id && (Follows(rows, id, path, j) ==> i == id || Follows(rows, id, path, i)) {
        MovedApart(rows, id, path, filename, parent, version, i, j);
      } else {
        MovedApart(rows, id, path, filename, parent, version, j, i);
      }
    }
  }

  // ---- Only such moves keep the tree ------------------------------------------------------

  /** Where each row is after any move, also one into the item itself. */
  lemma AfterMove(rows: Rows, id: Id, path: Path, filename: string, parent: Id, version: nat, i: Id)
    requires id in rows && i in rows
    ensures var from, after := rows[id].path, Renamed(rows, id, path, filename, parent, version);
            && i in after && after[i].isDeleted == rows[i].isDeleted && after[i].isDirectory == rows[i].isDirectory
            && after[id].parent == parent && after[id].filename == filename
            && (i != id ==> after[i].path == rows[i].path || (Under(from, rows[i].path) && |after[i].path| > |path|))
            && (after[id].path == path || (Under(from, path) && after[id].path == path + path[|from|..]))
  {
  }

  lemma IntoItselfBreaksTree(rows: Rows, id: Id, path: Path, filename: string, parent: Id, version: nat)
    requires Tree(rows) && Live(rows, id) && Under(rows[id].path, path)
    ensures !Tree(Renamed(rows, id, path, filename, parent, version))
  {
    var from, after := rows[id].path, Renamed(rows, id, path, filename, parent, version);
    AfterMove(rows, id, path, filename, parent, version, id);
    assert after[id].path[..|from|] == path[..|from|];
    assert Under(from, after[id].path);
    if Tree(after) {
      var a := AncestorAt(after, from, id);
      assert |Fold(after[a].path)| == |Fold(from)|;
      AfterMove(rows, id, path, filename, parent, version, a);
    }
  }

  lemma OnlyFreePlaces(rows: Rows, id: Id, path: Path, filename: string, parent: Id, version: nat)
    requires Tree(rows) && Live(rows, id) && !Under(rows[id].path, path)
    requires Tree(Renamed(rows, id, path, filename, parent, version))
    ensures CanMove(rows, id, path, filename, parent)
  {
    var after := Renamed(rows, id, path, filename, parent, version);
    AfterMove(rows, id, path, filename, parent, version, id);
    assert Live(after, id);
    assert Sits(after, parent, filename, path);
    if parent != "" {
      AfterMove(rows, id, path, filename, parent, version, parent);
    }
    forall other | Live(rows, other) && other != id ensures Fold(rows[other].path) != Fold(path) {
      AfterMove(rows, id, path, filename, parent, version, other);
      assert Live(after, other);
      if Under(rows[id].path, rows[other].path) && Fold(rows[other].path) == Fold(path) {
        UnderOfFold(rows[id].path, rows[other].path, path);
      }
    }
  }

  /** A move of a live item keeps the tree exactly when its destination is consistent, free and outside the item. */
  lemma MoveKeepsTreeIff(rows: Rows, id: Id, path: Path, filename: string, parent: Id, version: nat)
    requires Tree(rows) && Live(rows, id)
    ensures Tree(Renamed(rows, id, path, filename, parent, version)) <==> CanMove(rows, id, path, filename, parent)
  {
    if CanMove(rows, id, path, filename, parent) {
      MoveKeepsTree(rows, id, path, filename, parent, version);
    } else if Under(rows[id].path, path) {
      IntoItselfBreaksTree(rows, id, path, filename, parent, version);
    } else if Tree(Renamed(rows, id, path, filename, parent, version)) {
      OnlyFreePlaces(rows, id, path, filename, parent, version);
    }
  }

  /** What a move does not touch: every other item keeps its name, its parent and its version. */
  lemma MoveKeepsTheRest(rows: Rows, id: Id, path: Path, filename: string, parent: Id, version: nat, i: Id)
    requires id in rows && i in rows && i != id && !Under(rows[id].path, path)
    ensures var after := Renamed(rows, id, path, filename, parent, version);
            && after.Keys == rows.Keys
            && after[i] == rows[i].(path := after[i].path)
            && (rows[id].isDirectory && Under(rows[id].path, rows[i].path) ==>
                  Under(path, after[i].path) && |after[i].path| - |path| == |rows[i].path| - |rows[id].path|)
  {
    RenamedRow(rows, id, path, filename, parent, version, i);
    var from := rows[id].path;
    if Follows(rows, id, path, i) {
      var landed := path + rows[i].path[|from|..];
      assert landed[..|path|] == path && landed[|path|] == rows[i].path[|from|];
    }
  }

  // ---- Deleting ---------------------------------------------------------------------------

  /** Flagging an item for upload or deletion, with what lies below it, keeps the tree. */
  lemma PendingKeepsTree(before: Rows, after: Rows, id: Id, upload: bool, deletion: bool)
    requires Tree(before) && id in before && PendingSet(before, after, id, upload, deletion)
    ensures Tree(after)
  {
    forall i | Live(after, i) ensures Live(before, i) && after[i].path == before[i].path &&
                                      Sits(after, after[i].parent, after[i].filename, after[i].path) {
      StaysLive(before, after, id, upload, deletion, i);
      if before[i].parent != "" {
        ParentStays(before, after, id, upload, deletion, i);
      }
    }
  }

  lemma StaysLive(before: Rows, after: Rows, id: Id, upload: bool, deletion: bool, i: Id)
    requires id in before && PendingSet(before, after, id, upload, deletion) && Live(after, i)
    ensures Live(before, i) && !(deletion && i == id) && i !in TakenAlong(before, id, deletion)
    ensures after[i] == before[i].(pendingUpload := after[i].pendingUpload, version := after[i].version)
  {
    assert i in before;
  }

  lemma ParentStays(before: Rows, after: Rows, id: Id, upload: bool, deletion: bool, i: Id)
    requires Tree(before) && id in before && PendingSet(before, after, id, upload, deletion) && Live(after, i)
    requires Live(before, i) && before[i].parent != "" && after[i].path == before[i].path
    ensures var p := before[i].parent; Live(after, p) && after[p].isDirectory && after[p].path == before[p].path
  {
    var p := before[i].parent;
    StaysLive(before, after, id, upload, deletion, i);
    assert Sits(before, p, before[i].filename, before[i].path);
    var d := before[id].path;
    if deletion && before[id].isDirectory && (p == id || Under(d, before[p].path)) {
      ChildIsUnder(d, before[p].path, before[i].filename);
    }
  }

  /**
   * Deleting a folder leaves nothing live below it, and every row it took has its own version above all earlier
   * ones.
   */
  lemma FolderDeletionTakesAll(before: Rows, after: Rows, id: Id, upload: bool)
    requires id in before && before[id].isDirectory && PendingSet(before, after, id, upload, true)
    ensures forall i :: i in after && (i == id || Under(before[id].path, after[i].path)) ==>
              after[i].isDeleted && after[i].path == before[i].path
    ensures forall i :: Live(before, i) && !Live(after, i) ==>
              after[i].version > MaxOf(before) && after[i].pendingDeletion
    ensures forall i, j :: Live(before, i) && !Live(after, i) && Live(before, j) && !Live(after, j) && i != j ==>
              after[i].version != after[j].version
  {
    var along := TakenAlong(before, id, true);
    forall i | i in before
      ensures after[i].path == before[i].path && (after[i].isDeleted <==> before[i].isDeleted || i == id || i in along)
      ensures i == id || i in along ==> after[i].version > MaxOf(before) && after[i].pendingDeletion
    {
      DeletedRow(before, after, id, upload, along, MaxOf(before) + 1, i);
    }
    forall i, j | Live(before, i) && !Live(after, i) && Live(before, j) && !Live(after, j) && i != j
      ensures after[i].version != after[j].version
    {
      DeletedApart(before, after, id, upload, along, MaxOf(before) + 1, i, j);
    }
  }

  lemma DeletedRow(before: Rows, after: Rows, id: Id, upload: bool, along: set<Id>, top: nat, i: Id)
    requires id in before && along <= before.Keys && FlaggedWith(before, after, id, upload, true, along, top) &&
             i in before
    ensures after[i].path == before[i].path && (after[i].isDeleted <==> before[i].isDeleted || i == id || i in along)
    ensures i == id || i in along ==> after[i].version >= top && after[i].pendingDeletion
  {
  }

  lemma DeletedApart(before: Rows, after: Rows, id: Id, upload: bool, along: set<Id>, top: nat, i: Id, j: Id)
    requires id in before && along <= before.Keys && FlaggedWith(before, after, id, upload, true, along, top)
    requires i in before && j in before && i != j && (i == id || i in along) && (j == id || j in along)
    ensures after[i].version != after[j].version
  {
  }

  // ---- Runs -------------------------------------------------------------------------------

  lemma InsertKeepsTree(rows: Rows, id: Id, row: Row)
    requires Tree(rows) && id !in rows && Sits(rows, row.parent, row.filename, row.path)
    requires forall other :: Live(rows, other) ==> Fold(rows[other].path) != Fold(row.path)
    ensures Tree(rows[id := row])
  {
    var after := rows[id := row];
    forall i | Live(after, i) ensures Sits(after, after[i].parent, after[i].filename, after[i].path) {
      if i != id {
        assert Live(rows, i);
      }
    }
  }

  /** A create takes a fresh identifier and a free place; a move a free place outside the item. */
  ghost predicate Allowed(rows: Rows, w: Write) {
    match w
    case Create(id, row) =>
      && id !in rows && Sits(rows, row.parent, row.filename, row.path)
      && forall other :: Live(rows, other) ==> Fold(rows[other].path) != Fold(row.path)
    case Move(id, path, filename, parent) => CanMove(rows, id, path, filename, parent)
    case _ => true
  }

  lemma SameTree(before: Rows, after: Rows)
    requires Tree(before) && after.Keys == before.Keys
    requires forall i :: i in before ==>
               after[i] == before[i].(size := after[i].size, modified := after[i].modified, version := after[i].version,
                                      pendingUpload := after[i].pendingUpload,
                                      pendingDeletion := after[i].pendingDeletion)
    ensures Tree(after)
  {
    forall i | Live(after, i) ensures Sits(after, after[i].parent, after[i].filename, after[i].path) {
      assert Live(before, i);
    }
  }

  lemma WriteKeepsTree(before: Rows, after: Rows, w: Write)
    requires Tree(before) && Allowed(before, w) && Wrote(before, after, w)
    ensures Tree(after)
  {
    match w
    case Create(id, row) => InsertKeepsTree(before, id, row.(version := MaxOf(before) + 1));
    case Move(id, path, filename, parent) => MoveKeepsTree(before, id, path, filename, parent, MaxOf(before) + 1);
    case Mark(id, upload, deletion) =>
      if id in before {
        PendingKeepsTree(before, after, id, upload, deletion);
      }
    case Update(id, size, modified) => SameTree(before, after);
    case Clear(id) => SameTree(before, after);
  }

  /** Any run of creates, updates, moves, folder deletions and marks keeps the tree. */
  lemma {:induction false} RunsKeepTree(states: seq<Rows>, writes: seq<Write>)
    requires |states| == |writes| + 1 && Tree(states[0])
    requires forall k :: 0 <= k < |writes| ==>
               Allowed(states[k], writes[k]) && Wrote(states[k], states[k + 1], writes[k])
    ensures Tree(states[|writes|])
  {
    if writes != [] {
      var n := |writes| - 1;
      RunsKeepTree(states[..n + 1], writes[..n]);
      WriteKeepsTree(states[n], states[n + 1], writes[n]);
    }
  }
}
