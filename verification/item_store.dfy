/** `ios/DB/ItemStore.swift`: the item table and its single-item writes. */
module Items {
  import opened Types
  import opened ItemRows

  // ---- What each write does ---------------------------------------------------------------

  /** The rows after an item is moved; those below a renamed directory keep their versions. */
  function Renamed(rows: Rows, id: Id, path: Path, filename: string, parent: Id, version: nat): Rows
    requires id in rows
  {
    var was := rows[id];
    var moved := rows[id := was.(filename := filename, path := path, parent := parent, version := version)];
    if was.isDirectory && was.path != path then map i | i in moved :: Carried(was.path, path, moved[i]) else moved
  }

  /** A row below the old directory follows it. */
  function Carried(from: Path, to: Path, row: Row): Row {
    if Under(from, row.path) then row.(path := to + row.path[|from|..]) else row
  }

  /** The live rows a deletion takes along. */
  function TakenAlong(rows: Rows, id: Id, deletion: bool): set<Id>
    requires id in rows
  {
    if deletion && rows[id].isDirectory then
        set i | i in rows && i != id && Under(rows[id].path, rows[i].path) && !rows[i].isDeleted
    else {}
  }

  function Flagged(row: Row, upload: bool, deletion: bool, version: nat): Row {
    row.(pendingUpload := row.pendingUpload || upload, pendingDeletion := row.pendingDeletion || deletion,
         isDeleted := row.isDeleted || deletion, version := version)
  }

  /** One item flagged, and on deletion everything live below it, each with its own next version. */
  ghost predicate PendingSet(before: Rows, after: Rows, id: Id, upload: bool, deletion: bool)
    requires id in before
  {
    FlaggedWith(before, after, id, upload, deletion, TakenAlong(before, id, deletion), MaxOf(before) + 1)
  }

  ghost predicate FlaggedWith(before: Rows, after: Rows, id: Id, upload: bool, deletion: bool, along: set<Id>, top: nat)
    requires id in before && along <= before.Keys
  {
    && after.Keys == before.Keys
    && after[id] == Flagged(before[id], upload, deletion, top)
    && (forall i :: i in along ==>
        top < after[i].version <= top + |along| && after[i] == Flagged(before[i], false, true, after[i].version))
    && (forall i, j :: i in along && j in along && i != j ==> after[i].version != after[j].version)
    && (forall i :: i in before && i != id && i !in along ==> after[i] == before[i])
  }

  /** The writes that never remove a row. */
  datatype Write =
    | Create(id: Id, row: Row)
    | Update(id: Id, size: Option<nat>, modified: int)
    | Move(id: Id, path: Path, filename: string, parent: Id)
    | Mark(id: Id, upload: bool, deletion: bool)
    | Clear(id: Id)

  /** What each of them leaves; a write for an unknown item changes nothing. */
  ghost predicate Wrote(before: Rows, after: Rows, w: Write) {
    var top := MaxOf(before) + 1;
    if w.Create? then after == before[w.id := w.row.(version := top)]
    else if w.id !in before then after == before
    else
      match w
      case Update(id, size, modified) =>
          after == before[id := before[id].(size := size, modified := modified, version := top)]
      case Move(id, path, filename, parent) => after == Renamed(before, id, path, filename, parent, top)
      case Mark(id, upload, deletion) => PendingSet(before, after, id, upload, deletion)
      case Clear(id) => after == before[id := before[id].(pendingUpload := false, pendingDeletion := false)]
  }

  /** A page of changes: rows past the anchor in version order, cut off at the limit. */
  ghost predicate IsPage(rows: Rows, anchor: nat, limit: Option<nat>, page: seq<Id>) {
    && (forall k :: 0 <= k < |page| ==> page[k] in rows && rows[page[k]].version > anchor)
    && (forall j, k :: 0 <= j < k < |page| ==> page[j] != page[k] && rows[page[j]].version <= rows[page[k]].version)
    && (limit.Some? ==> |page| <= limit.value)
    && (forall id :: id in rows && rows[id].version > anchor && id !in page ==>
          && limit.Some? && |page| == limit.value
          && forall k :: 0 <= k < |page| ==> rows[page[k]].version <= rows[id].version)
  }

  class ItemStore {
    var rows: Rows

    constructor ()
      ensures rows == map[]
    {
      rows := map[];
    }

    // ---- Reads ----------------------------------------------------------------------------

    method MaxRowVersion() returns (m: nat)
      ensures m == MaxOf(rows)
    {
      m := 0;
      var todo := rows.Keys;
      while todo != {}
        invariant todo <= rows.Keys
        invariant forall id :: id in rows && id !in todo ==> rows[id].version <= m
        invariant m == 0 || exists id :: id in rows && rows[id].version == m
        decreases todo
      {
        var id :| id in todo;
        todo := todo - {id};
        if rows[id].version > m {
          m := rows[id].version;
        }
      }
    }

    method Lowest(todo: set<Id>) returns (least: Id)
      requires todo != {} && todo <= rows.Keys
      ensures least in todo && forall id :: id in todo ==> rows[least].version <= rows[id].version
    {
      least :| least in todo;
      var rest := todo - {least};
      while rest != {}
        invariant rest <= todo && least in todo
        invariant forall id :: id in todo && id !in rest ==> rows[least].version <= rows[id].version
        decreases rest
      {
        var id :| id in rest;
        rest := rest - {id};
        if rows[id].version < rows[least].version {
          least := id;
        }
      }
    }

    method Changes(anchor: nat, limit: Option<nat>) returns (page: seq<Id>)
      ensures IsPage(rows, anchor, limit, page)
    {
      page := [];
      var todo := set id | id in rows && rows[id].version > anchor;
      while todo != {} && (limit.None? || |page| < limit.value)
        invariant limit.Some? ==> |page| <= limit.value
        invariant PageUnderWay(rows, anchor, page, todo)
        decreases todo
      {
        var id := Lowest(todo);
        PageOneMore(rows, anchor, page, todo, id);
        todo := todo - {id};
        page := page + [id];
      }
    }

    // ---- Writes ---------------------------------------------------------------------------

    method Insert(id: Id, row: Row)
      modifies this
      ensures rows == old(rows)[id := row.(version := MaxOf(old(rows)) + 1)]
    {
      var m := MaxRowVersion();
      rows := rows[id := row.(version := m + 1)];
    }

    method UpdateContent(id: Id, size: Option<nat>, modified: int) returns (updated: Option<Row>)
      modifies this
      ensures id !in old(rows) ==> rows == old(rows) && updated == None
      ensures id in old(rows) ==>
                var row := old(rows)[id].(size := size, modified := modified, version := MaxOf(old(rows)) + 1);
                rows == old(rows)[id := row] && updated == Some(row)
    {
      if id !in rows {
        return None;
      }
      var m := MaxRowVersion();
      var row := rows[id].(size := size, modified := modified, version := m + 1);
      rows := rows[id := row];
      updated := Some(row);
    }

    method Descendants(directory: Path) returns (found: set<Id>)
      ensures found == set i | i in rows && Under(directory, rows[i].path)
    {
      found := set i | i in rows && Under(directory, rows[i].path);
    }

    method Rename(id: Id, path: Path, filename: string, parent: Id)
      modifies this
      ensures rows == if id in old(rows)
                      then Renamed(old(rows), id, path, filename, parent, MaxOf(old(rows)) + 1)
                      else old(rows)
    {
      if id !in rows {
        return;
      }
      var m := MaxRowVersion();
      var was := rows[id];
      rows := rows[id := was.(filename := filename, path := path, parent := parent, version := m + 1)];
      if was.isDirectory && was.path != path {
        ghost var moved := rows;
        var todo := Descendants(was.path);
        while todo != {}
          invariant HalfCarried(moved, rows, was.path, path, todo)
          decreases todo
        {
          var i :| i in todo;
          CarryOneMore(moved, rows, was.path, path, todo, i);
          todo := todo - {i};
          rows := rows[i := rows[i].(path := path + rows[i].path[|was.path|..])];
        }
        assert rows == map i | i in moved :: Carried(was.path, path, moved[i]);
      }
    }

    method SetPending(id: Id, upload: bool, deletion: bool)
      modifies this
      ensures if id in old(rows) then PendingSet(old(rows), rows, id, upload, deletion) else rows == old(rows)
    {
      if id !in rows {
        return;
      }
      ghost var before := rows;
      var m := MaxRowVersion();
      var row := Flagged(rows[id], upload, deletion, m + 1);
      rows := rows[id := row];
      if !deletion || !row.isDirectory {
        AloneSet(before, id, upload, deletion, m + 1);
      } else {
        FlagFolder(id, row.path, before, upload, m + 1);
      }
    }

    /** The rest of a folder deletion, once the folder itself is flagged. */
    method FlagFolder(id: Id, path: Path, ghost before: Rows, ghost upload: bool, top: nat)
      requires id in before && before[id].isDirectory && before[id].path == path && top == MaxOf(before) + 1
      requires rows == before[id := Flagged(before[id], upload, true, top)]
      modifies this
      ensures PendingSet(before, rows, id, upload, true)
    {
      var along := LiveBelow(path);
      ghost var mid := rows;
      AlongIs(before, mid, id, path, along);
      FlagBelow(along, top + 1);
      FolderSet(before, mid, rows, id, upload, along, top);
    }

    method LiveBelow(directory: Path) returns (along: set<Id>)
      ensures along == set i | i in rows && Under(directory, rows[i].path) && !rows[i].isDeleted
    {
      var below := Descendants(directory);
      along := set i | i in below && !rows[i].isDeleted;
    }

    /** The loop of a folder deletion: each row below gets the next version. */
    method FlagBelow(along: set<Id>, first: nat)
      requires along <= rows.Keys
      modifies this
      ensures HalfFlagged(old(rows), rows, along, {}, first, first + |along|)
    {
      ghost var before := rows;
      var todo, next := along, first;
      while todo != {}
        invariant todo <= along && first <= next && next == first + |along| - |todo|
        invariant HalfFlagged(before, rows, along, todo, first, next)
        decreases todo
      {
        var i :| i in todo;
        FlagOneMore(before, rows, along, todo, first, next, i);
        todo := todo - {i};
        rows := rows[i := Flagged(rows[i], false, true, next)];
        next := next + 1;
      }
    }

    method ClearPending(id: Id)
      modifies this
      ensures rows == if id in old(rows)
                      then old(rows)[id := old(rows)[id].(pendingUpload := false, pendingDeletion := false)]
                      else old(rows)
    {
      if id in rows {
        rows := rows[id := rows[id].(pendingUpload := false, pendingDeletion := false)];
      }
    }

    method DrainPendingAfterSync(completed: bool)
      modifies this
      ensures rows == if completed then Drained(old(rows)) else old(rows)
    {
      if completed {
        rows := map id | id in rows :: rows[id].(pendingUpload := false);
        rows := map id | id in rows && !rows[id].pendingDeletion :: rows[id];
      }
    }

    method Remove(id: Id)
      modifies this
      ensures rows == old(rows) - {id}
    {
      rows := rows - {id};
    }
  }

  function Drained(rows: Rows): Rows {
    map id | id in rows && !rows[id].pendingDeletion :: rows[id].(pendingUpload := false)
  }

  /** A folder deletion part-way through: `todo` still to be flagged, versions below `next` given out. */
  ghost predicate HalfFlagged(before: Rows, rows: Rows, along: set<Id>, todo: set<Id>, first: nat, next: nat)
    requires along <= before.Keys
  {
    && rows.Keys == before.Keys
    && (forall i :: i in along && i !in todo ==>
          first <= rows[i].version < next && rows[i] == Flagged(before[i], false, true, rows[i].version))
    && (forall i, j :: i in along && j in along && i !in todo && j !in todo && i != j ==>
        rows[i].version != rows[j].version)
    && (forall i :: i in before && (i !in along || i in todo) ==> rows[i] == before[i])
  }

  lemma FlagOneMore(before: Rows, rows: Rows, along: set<Id>, todo: set<Id>, first: nat, next: nat, i: Id)
    requires along <= before.Keys && HalfFlagged(before, rows, along, todo, first, next) && i in todo && todo <= along
    requires first <= next
    ensures i in rows && HalfFlagged(before, rows[i := Flagged(rows[i], false, true, next)], along, todo - {i}, first,
                                     next + 1)
  {
  }

  ghost predicate HalfCarried(moved: Rows, rows: Rows, from: Path, to: Path, todo: set<Id>) {
    && rows.Keys == moved.Keys && todo <= rows.Keys
    && (forall i :: i in todo ==> Under(from, moved[i].path))
    && (forall i :: i in rows ==> rows[i] == if i in todo then moved[i] else Carried(from, to, moved[i]))
  }

  lemma CarryOneMore(moved: Rows, rows: Rows, from: Path, to: Path, todo: set<Id>, i: Id)
    requires HalfCarried(moved, rows, from, to, todo) && i in todo
    ensures |from| <= |rows[i].path|
    ensures HalfCarried(moved, rows[i := rows[i].(path := to + rows[i].path[|from|..])], from, to, todo - {i})
  {
  }

  ghost predicate PageUnderWay(rows: Rows, anchor: nat, page: seq<Id>, todo: set<Id>) {
    && todo <= rows.Keys
    && (forall id :: id in rows && rows[id].version > anchor ==> id in todo || id in page)
    && (forall k :: 0 <= k < |page| ==> page[k] in rows && rows[page[k]].version > anchor && page[k] !in todo)
    && (forall k, id :: 0 <= k < |page| && id in todo ==> rows[page[k]].version <= rows[id].version)
    && (forall id :: id in todo ==> rows[id].version > anchor)
    && (forall j, k :: 0 <= j < k < |page| ==> page[j] != page[k] && rows[page[j]].version <= rows[page[k]].version)
  }

  lemma PageOneMore(rows: Rows, anchor: nat, page: seq<Id>, todo: set<Id>, id: Id)
    requires PageUnderWay(rows, anchor, page, todo) && id in todo
    requires forall other :: other in todo ==> rows[id].version <= rows[other].version
    ensures PageUnderWay(rows, anchor, page + [id], todo - {id})
  {
    var page' := page + [id];
    assert page'[|page|] == id;
    forall other | other in page ensures other in page' {
      assert other in page + [id];
    }
    PageInOrder(rows, page, todo, id);
  }

  lemma PageInOrder(rows: Rows, page: seq<Id>, todo: set<Id>, id: Id)
    requires id in todo && todo <= rows.Keys
    requires forall k :: 0 <= k < |page| ==>
               page[k] in rows && page[k] !in todo && rows[page[k]].version <= rows[id].version
    requires forall j, k :: 0 <= j < k < |page| ==> page[j] != page[k] && rows[page[j]].version <= rows[page[k]].version
    ensures var page' := page + [id];
            forall j, k :: 0 <= j < k < |page'| ==>
                  page'[j] != page'[k] && rows[page'[j]].version <= rows[page'[k]].version
  {
  }

  lemma AlongIs(before: Rows, mid: Rows, id: Id, path: Path, along: set<Id>)
    requires id in before && before[id].isDirectory && path == before[id].path
    requires mid.Keys == before.Keys && mid[id].path == path &&
             forall i :: i in before && i != id ==> mid[i] == before[i]
    requires along == set i | i in mid && Under(path, mid[i].path) && !mid[i].isDeleted
    ensures along == TakenAlong(before, id, true)
  {
    assert !Under(path, path);
  }

  lemma AloneSet(before: Rows, id: Id, upload: bool, deletion: bool, top: nat)
    requires id in before && !(deletion && before[id].isDirectory) && top == MaxOf(before) + 1
    ensures PendingSet(before, before[id := Flagged(before[id], upload, deletion, top)], id, upload, deletion)
  {
  }

  lemma FolderSet(before: Rows, mid: Rows, after: Rows, id: Id, upload: bool, along: set<Id>, top: nat)
    requires id in before && mid == before[id := Flagged(before[id], upload, true, top)]
    requires id !in along && along <= mid.Keys
    requires HalfFlagged(mid, after, along, {}, top + 1, top + 1 + |along|)
    ensures along <= before.Keys && FlaggedWith(before, after, id, upload, true, along, top)
  {
  }
}
