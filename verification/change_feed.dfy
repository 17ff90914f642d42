/** `ios/FileProvider/FileProviderEnumerator.swift`: handing the changed rows over in pages, by version anchor. */
module ChangeFeed {
  import opened Types
  import opened ItemRows
  import opened Items

  const PAGE_SIZE: nat := 500

  // ---- Versions ---------------------------------------------------------------------------

  ghost predicate VersionsApart(rows: Rows) {
    forall i, j :: i in rows && j in rows && i != j ==> rows[i].version != rows[j].version
  }

  /** No row is gone, and a row whose version changed is past every version there was. */
  ghost predicate Later(before: Rows, after: Rows) {
    && (forall i :: i in before ==> i in after)
    && (forall i :: i in after ==>
        (i in before && after[i].version == before[i].version) || after[i].version > MaxOf(before))
  }

  lemma MaxGrows(before: Rows, after: Rows)
    requires Later(before, after)
    ensures MaxOf(before) <= MaxOf(after)
  {
    if MaxOf(before) > 0 {
      var i :| i in before && before[i].version == MaxOf(before);
      assert i in after;
    }
  }

  lemma LaterStill(a: Rows, b: Rows, c: Rows)
    requires Later(a, b) && Later(b, c)
    ensures Later(a, c)
  {
    MaxGrows(a, b);
  }

  lemma TopIsFresh(before: Rows, id: Id, row: Row)
    requires VersionsApart(before) && row.version == MaxOf(before) + 1
    ensures VersionsApart(before[id := row]) && Later(before, before[id := row])
  {
  }

  /** The same rows, all but one at their versions. */
  ghost predicate OnlyMoved(before: Rows, after: Rows, id: Id, top: nat) {
    && after.Keys == before.Keys
    && forall i :: i in before ==> after[i].version == if i == id then top else before[i].version
  }

  lemma SameVersions(before: Rows, after: Rows, id: Id, top: nat)
    requires VersionsApart(before) && OnlyMoved(before, after, id, top)
    requires top == MaxOf(before) + 1 || (id in before && top == before[id].version)
    ensures VersionsApart(after) && Later(before, after)
  {
  }

  lemma MarkKeepsApart(before: Rows, after: Rows, id: Id, upload: bool, deletion: bool)
    requires VersionsApart(before) && id in before && PendingSet(before, after, id, upload, deletion)
    ensures VersionsApart(after) && Later(before, after)
  {
    var along := TakenAlong(before, id, deletion);
    forall i | i in before
      ensures i == id || i in along ==> after[i].version > MaxOf(before)
      ensures i != id && i !in along ==> after[i].version == before[i].version <= MaxOf(before)
    {
    }
    assert forall i :: i in along ==> after[i].version > after[id].version;
  }

  lemma RenamedVersions(before: Rows, after: Rows, id: Id, path: Path, filename: string, parent: Id, top: nat)
    requires id in before && after == Renamed(before, id, path, filename, parent, top)
    ensures OnlyMoved(before, after, id, top)
  {
  }

  lemma NoWriteKeepsApart(before: Rows)
    requires VersionsApart(before)
    ensures Later(before, before)
  {
  }

  lemma UpdateKeepsApart(before: Rows, after: Rows, w: Write)
    requires VersionsApart(before) && Wrote(before, after, w) && (w.Create? || w.Update?)
    ensures VersionsApart(after) && Later(before, after)
  {
    if w.Create? || w.id in before {
      TopIsFresh(before, w.id, after[w.id]);
    } else {
      NoWriteKeepsApart(before);
    }
  }

  lemma ClearKeepsApart(before: Rows, after: Rows, w: Write)
    requires VersionsApart(before) && Wrote(before, after, w) && w.Clear?
    ensures VersionsApart(after) && Later(before, after)
  {
    if w.id in before {
      SameVersions(before, after, w.id, before[w.id].version);
    } else {
      NoWriteKeepsApart(before);
    }
  }

  /** Every write that removes no row leaves versions pairwise distinct, and touched rows past all earlier ones. */
  lemma WriteKeepsApart(before: Rows, after: Rows, w: Write)
    requires VersionsApart(before) && Wrote(before, after, w)
    ensures VersionsApart(after) && Later(before, after)
  {
    if w.Create? || w.Update? {
      UpdateKeepsApart(before, after, w);
    } else if w.Clear? {
      ClearKeepsApart(before, after, w);
    } else if w.Move? {
      MoveWriteKeepsApart(before, after, w);
    } else {
      MarkWriteKeepsApart(before, after, w);
    }
  }

  lemma MoveWriteKeepsApart(before: Rows, after: Rows, w: Write)
    requires VersionsApart(before) && Wrote(before, after, w) && w.Move?
    ensures VersionsApart(after) && Later(before, after)
  {
    if w.id in before {
      RenamedVersions(before, after, w.id, w.path, w.filename, w.parent, MaxOf(before) + 1);
      SameVersions(before, after, w.id, MaxOf(before) + 1);
    } else {
      NoWriteKeepsApart(before);
    }
  }

  lemma MarkWriteKeepsApart(before: Rows, after: Rows, w: Write)
    requires VersionsApart(before) && Wrote(before, after, w) && w.Mark?
    ensures VersionsApart(after) && Later(before, after)
  {
    if w.id in before {
      MarkKeepsApart(before, after, w.id, w.upload, w.deletion);
    } else {
      NoWriteKeepsApart(before);
    }
  }

  lemma {:induction false} RunsKeepApart(states: seq<Rows>, writes: seq<Write>)
    requires |states| == |writes| + 1 && VersionsApart(states[0])
    requires forall k :: 0 <= k < |writes| ==> Wrote(states[k], states[k + 1], writes[k])
    ensures VersionsApart(states[|writes|]) && Later(states[0], states[|writes|])
  {
    if writes != [] {
      var n := |writes| - 1;
      RunsKeepApart(states[..n + 1], writes[..n]);
      WriteKeepsApart(states[n], states[n + 1], writes[n]);
      LaterStill(states[0], states[n], states[n + 1]);
    }
  }

  // ---- One page ---------------------------------------------------------------------------

  /** The anchor after a page: the last row handed over, never below the one asked from. */
  function NextAnchor(rows: Rows, anchor: nat, page: seq<Id>): nat {
    if page == [] then anchor
    else
      var last := page[|page| - 1];
      if last in rows && rows[last].version > anchor then rows[last].version else anchor
  }

  method EnumerateChanges(store: ItemStore, anchor: nat)
    returns (page: seq<Id>, updates: seq<Id>, deletes: seq<Id>, next: nat, more: bool)
    ensures IsPage(store.rows, anchor, Some(PAGE_SIZE), page)
    ensures forall id :: id in updates <==> id in page && !store.rows[id].isDeleted
    ensures forall id :: id in deletes <==> id in page && store.rows[id].isDeleted
    ensures |updates| + |deletes| == |page|
    ensures next == NextAnchor(store.rows, anchor, page)
    ensures more <==> |page| == PAGE_SIZE
  {
    page := store.Changes(anchor, Some(PAGE_SIZE));
    updates, deletes := [], [];
    for k := 0 to |page|
      invariant |updates| + |deletes| == k
      invariant forall id :: id in updates <==> id in page[..k] && !store.rows[id].isDeleted
      invariant forall id :: id in deletes <==> id in page[..k] && store.rows[id].isDeleted
    {
      assert page[..k + 1] == page[..k] + [page[k]];
      if store.rows[page[k]].isDeleted {
        deletes := deletes + [page[k]];
      } else {
        updates := updates + [page[k]];
      }
    }
    assert page[..|page|] == page;
    var last := if page != [] then store.rows[page[|page| - 1]].version else anchor;
    next := if last > anchor then last else anchor;
    more := |page| == PAGE_SIZE;
  }

  /** A page holds everything between the two anchors, and a short page everything there is. */
  lemma PageIsComplete(rows: Rows, anchor: nat, page: seq<Id>, id: Id)
    requires VersionsApart(rows) && IsPage(rows, anchor, Some(PAGE_SIZE), page) && id in rows &&
             rows[id].version > anchor
    ensures id in page <==> rows[id].version <= NextAnchor(rows, anchor, page)
    ensures |page| < PAGE_SIZE ==> id in page
  {
    if page != [] {
      var last := page[|page| - 1];
      assert last in page;
      if id in page {
        var k :| 0 <= k < |page| && page[k] == id;
        assert rows[page[k]].version <= rows[last].version;
      } else {
        assert rows[last].version != rows[id].version;
      }
    }
  }

  lemma AnchorIsReached(rows: Rows, anchor: nat, page: seq<Id>)
    requires IsPage(rows, anchor, Some(PAGE_SIZE), page)
    ensures anchor <= NextAnchor(rows, anchor, page)
    ensures NextAnchor(rows, anchor, page) == anchor || NextAnchor(rows, anchor, page) <= MaxOf(rows)
  {
  }

  // ---- Paging -----------------------------------------------------------------------------

  /** One call: the table it read, the anchor it was asked from and the page it handed over. */
  datatype Turn = Turn(rows: Rows, anchor: nat, page: seq<Id>)

  function NextOf(t: Turn): nat {
    NextAnchor(t.rows, t.anchor, t.page)
  }

  ghost predicate IsTurn(t: Turn) {
    VersionsApart(t.rows) && IsPage(t.rows, t.anchor, Some(PAGE_SIZE), t.page)
  }

  /** The next call, from the anchor the last one gave, after any writes that remove no row. */
  ghost predicate Leads(t: Turn, u: Turn) {
    Later(t.rows, u.rows) && u.anchor == NextOf(t)
  }

  ghost predicate Paging(anchor: nat, turns: seq<Turn>) {
    && turns != [] && turns[0].anchor == anchor
    && (forall k :: 0 <= k < |turns| ==> IsTurn(turns[k]))
    && (forall j, k :: 0 <= j && k == j + 1 && k < |turns| ==> Leads(turns[j], turns[k]))
  }

  /** A row handed over at the given version. */
  ghost predicate Handed(turns: seq<Turn>, id: Id, version: nat) {
    exists k :: 0 <= k < |turns| && id in turns[k].page && Get(turns[k].rows, id).Some? &&
        turns[k].rows[id].version == version
  }

  lemma HandedBefore(turns: seq<Turn>, t: Turn, id: Id, version: nat)
    requires Handed(turns, id, version)
    ensures Handed(turns + [t], id, version)
  {
    var k :| 0 <= k < |turns| && id in turns[k].page && Get(turns[k].rows, id).Some? &&
        turns[k].rows[id].version == version;
    assert (turns + [t])[k] == turns[k];
  }

  /** Past the first anchor, an anchor never exceeds the versions there are. */
  ghost predicate AnchorInReach(anchor: nat, t: Turn) {
    anchor <= NextOf(t) && (NextOf(t) == anchor || NextOf(t) <= MaxOf(t.rows))
  }

  lemma AnchorStaysInReach(anchor: nat, t: Turn, u: Turn)
    requires AnchorInReach(anchor, t) && Leads(t, u) && IsTurn(u)
    ensures AnchorInReach(anchor, u)
  {
    MaxGrows(t.rows, u.rows);
    AnchorIsReached(u.rows, u.anchor, u.page);
  }

  /** A row at or below a later call's anchor has not changed since the call before. */
  lemma UnchangedSince(anchor: nat, t: Turn, u: Turn, id: Id)
    requires AnchorInReach(anchor, t) && Leads(t, u) && id in u.rows && anchor < u.rows[id].version <= u.anchor
    ensures id in t.rows && t.rows[id].version == u.rows[id].version
  {
  }

  /** Everything past the first anchor and up to the last one has been handed over. */
  ghost predicate HandedSoFar(anchor: nat, turns: seq<Turn>, t: Turn) {
    && AnchorInReach(anchor, t)
    && forall id :: id in t.rows && anchor < t.rows[id].version <= NextOf(t) ==> Handed(turns, id, t.rows[id].version)
  }

  lemma {:induction false} HandedUpToTheAnchor(anchor: nat, turns: seq<Turn>)
    requires Paging(anchor, turns)
    ensures HandedSoFar(anchor, turns, turns[|turns| - 1])
  {
    var n := |turns| - 1;
    var front, u := turns[..n], turns[n];
    assert turns == front + [u] && IsTurn(u);
    if n == 0 {
      HandedAtFirst(anchor, u);
      assert turns == [u];
    } else {
      assert front[n - 1] == turns[n - 1] && Leads(turns[n - 1], u);
      HandedUpToTheAnchor(anchor, front);
      HandedByNext(anchor, front, turns[n - 1], u);
    }
  }

  lemma HandedAtFirst(anchor: nat, u: Turn)
    requires IsTurn(u) && u.anchor == anchor
    ensures HandedSoFar(anchor, [u], u)
  {
    AnchorIsReached(u.rows, u.anchor, u.page);
    assert [u] == [] + [u];
    forall id | id in u.rows && anchor < u.rows[id].version <= NextOf(u) ensures Handed([u], id, u.rows[id].version) {
      HandedNow([], u, id);
    }
  }

  lemma HandedByNext(anchor: nat, front: seq<Turn>, t: Turn, u: Turn)
    requires HandedSoFar(anchor, front, t) && Leads(t, u) && IsTurn(u)
    ensures HandedSoFar(anchor, front + [u], u)
  {
    AnchorStaysInReach(anchor, t, u);
    forall id | id in u.rows && anchor < u.rows[id].version <= NextOf(u)
      ensures Handed(front + [u], id, u.rows[id].version)
    {
      if u.rows[id].version > u.anchor {
        HandedNow(front, u, id);
      } else {
        HandedEarlier(anchor, front, t, u, id);
      }
    }
  }

  lemma HandedEarlier(anchor: nat, front: seq<Turn>, t: Turn, u: Turn, id: Id)
    requires HandedSoFar(anchor, front, t) && Leads(t, u) && id in u.rows && anchor < u.rows[id].version <= u.anchor
    ensures Handed(front + [u], id, u.rows[id].version)
  {
    UnchangedSince(anchor, t, u, id);
    HandedBefore(front, u, id, u.rows[id].version);
  }

  lemma HandedNow(front: seq<Turn>, u: Turn, id: Id)
    requires IsTurn(u) && id in u.rows && u.anchor < u.rows[id].version <= NextOf(u)
    ensures Handed(front + [u], id, u.rows[id].version)
  {
    PageIsComplete(u.rows, u.anchor, u.page, id);
    assert (front + [u])[|front|] == u && Get(u.rows, id).Some?;
  }

  /**
   * Paging from any anchor, with writes between the pages: when a page reports no more, every row
   * whose latest version exceeds the first anchor has been handed over at that version.
   */
  lemma FeedIsComplete(anchor: nat, turns: seq<Turn>, id: Id)
    requires Paging(anchor, turns)
    requires var t := turns[|turns| - 1]; |t.page| < PAGE_SIZE && id in t.rows && t.rows[id].version > anchor
    ensures Handed(turns, id, turns[|turns| - 1].rows[id].version)
  {
    var t := turns[|turns| - 1];
    HandedUpToTheAnchor(anchor, turns);
    assert IsTurn(t);
    if t.rows[id].version > t.anchor {
      PageIsComplete(t.rows, t.anchor, t.page, id);
    } else {
      AnchorIsReached(t.rows, t.anchor, t.page);
    }
  }

  /** Without writes in between, each page takes itself off what remains, so the pages run out. */
  lemma PagesRunOut(rows: Rows, anchor: nat, page: seq<Id>)
    requires VersionsApart(rows) && IsPage(rows, anchor, Some(PAGE_SIZE), page)
    ensures var next := NextAnchor(rows, anchor, page);
            |set id | id in rows && rows[id].version > next| + |page| ==
            |set id | id in rows && rows[id].version > anchor|
  {
    var next := NextAnchor(rows, anchor, page);
    var wanted := set id | id in rows && rows[id].version > anchor;
    var rest := set id | id in rows && rows[id].version > next;
    AnchorIsReached(rows, anchor, page);
    forall id | id in wanted ensures id in page <==> id !in rest {
      PageIsComplete(rows, anchor, page, id);
    }
    PageIsWanted(rows, anchor, page);
    SplitSize(wanted, rest, page);
  }

  lemma PageIsWanted(rows: Rows, anchor: nat, page: seq<Id>)
    requires IsPage(rows, anchor, Some(PAGE_SIZE), page)
    ensures forall id :: id in page ==> id in rows && rows[id].version > anchor
  {
  }

  lemma SplitSize(wanted: set<Id>, rest: set<Id>, page: seq<Id>)
    requires rest <= wanted && (forall id :: id in page ==> id in wanted)
    requires forall id :: id in wanted ==> (id in page <==> id !in rest)
    requires forall j, k :: 0 <= j < k < |page| ==> page[j] != page[k]
    ensures |rest| + |page| == |wanted|
  {
    var handed := set id | id in page;
    assert wanted == handed + rest && handed !! rest;
    DistinctSize(page);
  }

  lemma {:induction false} DistinctSize(page: seq<Id>)
    requires forall j, k :: 0 <= j < k < |page| ==> page[j] != page[k]
    ensures |set id | id in page| == |page|
  {
    if page != [] {
      var front, last := page[..|page| - 1], page[|page| - 1];
      DistinctSize(front);
      assert page == front + [last];
      assert (set id | id in page) == (set id | id in front) + {last};
    }
  }

  // ---- Hard deletes -----------------------------------------------------------------------

  /**
   * The feed's limit: with an anchor at the highest version, an item written after rows were
   * removed is missed exactly when every row of the highest version was among them.
   */
  lemma HardDeleteMissesIff(rows: Rows, gone: set<Id>, id: Id, row: Row, limit: Option<nat>, page: seq<Id>)
    requires var after := (rows - gone)[id := row.(version := MaxOf(rows - gone) + 1)];
             IsPage(after, MaxOf(rows), limit, page) && (limit.Some? ==> limit.value > 0)
    ensures id !in page <==> MaxOf(rows) > 0 && forall i :: i in rows && rows[i].version == MaxOf(rows) ==> i in gone
  {
    var m, left := MaxOf(rows), rows - gone;
    var after := left[id := row.(version := MaxOf(left) + 1)];
    assert forall i :: i in left ==> left[i].version <= m;
    if MaxOf(left) < m {
      assert forall i :: i in rows && i !in gone ==> i in left;
      PastTheAnchor(after, m, limit, page, id);
    } else {
      NewRowIsPast(left, m, id, after[id], limit, page);
      if m > 0 {
        var i :| i in left && left[i].version == m;
        assert i in rows && i !in gone;
      }
    }
  }

  lemma PastTheAnchor(rows: Rows, anchor: nat, limit: Option<nat>, page: seq<Id>, id: Id)
    requires IsPage(rows, anchor, limit, page)
    ensures id in page ==> id in rows && rows[id].version > anchor
  {
  }

  lemma NewRowIsPast(left: Rows, m: nat, id: Id, row: Row, limit: Option<nat>, page: seq<Id>)
    requires (forall i :: i in left ==> left[i].version <= m) && row.version > m && (limit.Some? ==> limit.value > 0)
    requires IsPage(left[id := row], m, limit, page)
    ensures id in page
  {
    assert |page| > 0 ==> page[0] in left[id := row] && left[id := row][page[0]].version > m && page[0] == id;
  }

  /** So an item created after a deletion was reported and then drained is not in the feed. */
  lemma CreatedAfterDrainIsMissed(before: Rows, mid: Rows, id: Id, item: Id, row: Row, limit: Option<nat>,
                                  page: seq<Id>)
    requires id in before && PendingSet(before, mid, id, false, true) && (limit.Some? ==> limit.value > 0)
    requires var drained := Drained(mid);
             IsPage(drained[item := row.(version := MaxOf(drained) + 1)], MaxOf(mid), limit, page)
    ensures item !in page
  {
    var drained := Drained(mid);
    var m := MaxOf(mid);
    assert mid[id].version > MaxOf(before);
    forall i | i in drained ensures drained[i].version < m {
      assert i in before && i != id && i !in TakenAlong(before, id, true);
      assert drained[i].version == before[i].version;
    }
  }
}
