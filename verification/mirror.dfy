/** What `reconcile` of `ios/DB/ItemStore.swift` achieves. */
module Mirror {
  import opened Types
  import opened ItemRows
  import opened Items
  import opened ItemTree
  import opened Reconciling

  ghost predicate OneLiveRowPerPath(rows: Rows) {
    forall a, b :: Live(rows, a) && Live(rows, b) && rows[a].path == rows[b].path ==> a == b
  }

  /** A pass over `before`, as `Reconcile` leaves it. */
  ghost predicate Pass(before: Rows, existing: map<Path, Id>, mint: Path -> Id, disk: Disk, after: Rows) {
    Chosen(before, existing) && Minted(before, mint) && Outcome(before, existing, mint, disk, after)
  }

  lemma KeptIsChosen(before: Rows, existing: map<Path, Id>, id: Id)
    requires Chosen(before, existing) && OneLiveRowPerPath(before) && id in Kept(before, existing)
    ensures Get(existing, before[id].path) == Some(id)
  {
  }

  /** Every row after the pass is the one its path is matched with. */
  lemma OneRowPerPath(before: Rows, existing: map<Path, Id>, mint: Path -> Id, disk: Disk, after: Rows, id: Id)
    requires Pass(before, existing, mint, disk, after) && OneLiveRowPerPath(before) && id in after
    ensures id == IdAt(existing, mint, after[id].path)
    ensures id in Kept(before, existing) ==> after[id].path == before[id].path
    ensures id !in Kept(before, existing) ==> after[id].path in disk
  {
    var kept := Kept(before, existing);
    if id in kept {
      KeptIsChosen(before, existing, id);
      if IsMatch(kept, existing, disk, id) {
        assert RowIsRight(kept, existing, mint, disk, after, kept[id].path);
      } else {
        assert LeftoverIsRight(kept, existing, after, id);
      }
    } else {
      assert IsNew(existing, mint, disk, {}, id);
      var p :| p in disk && p !in existing && mint(p) == id;
      assert RowIsRight(kept, existing, mint, disk, after, p);
    }
  }

  /** Metadata, parent and life of a scanned path's row. */
  lemma ScannedRow(before: Rows, existing: map<Path, Id>, mint: Path -> Id, disk: Disk, after: Rows, p: Path)
    requires Pass(before, existing, mint, disk, after) && p in disk
    ensures var id := IdAt(existing, mint, p);
            Live(after, id) && after[id].path == p && Fits(after[id], disk[p], ParentId(existing, mint, disk, p))
  {
    var kept, id := Kept(before, existing), IdAt(existing, mint, p);
    assert RowIsRight(kept, existing, mint, disk, after, p);
  }

  /**
   * After a pass each scanned path has exactly one live row, with the scanned metadata and its
   * parent's identifier; a path that had rows keeps one of their identifiers; and the only live
   * rows off the disk are pending ones, untouched.
   */
  lemma ReconcileMirrorsDisk(before: Rows, existing: map<Path, Id>, mint: Path -> Id, disk: Disk, after: Rows)
    requires Pass(before, existing, mint, disk, after) && OneLiveRowPerPath(before)
    ensures OneLiveRowPerPath(after)
    ensures forall p :: p in disk ==> var id := IdAt(existing, mint, p);
              Live(after, id) && after[id].path == p && Fits(after[id], disk[p], ParentId(existing, mint, disk, p))
    ensures forall p :: p in disk && Stem(p) != "" && Stem(p) in disk ==>
              var parent := after[IdAt(existing, mint, p)].parent; Live(after, parent) && after[parent].path == Stem(p)
    ensures forall p, id :: p in disk && id in before && before[id].path == p ==>
              IdAt(existing, mint, p) in before && before[IdAt(existing, mint, p)].path == p
    ensures forall id :: Live(after, id) && after[id].path !in disk ==>
              Get(before, id) == Some(after[id]) && (after[id].pendingUpload || after[id].pendingDeletion)
  {
    forall p | p in disk ensures var id := IdAt(existing, mint, p);
        Live(after, id) && after[id].path == p && Fits(after[id], disk[p], ParentId(existing, mint, disk, p)) {
      ScannedRow(before, existing, mint, disk, after, p);
    }
    forall p | p in disk && Stem(p) != "" && Stem(p) in disk
      ensures var parent := after[IdAt(existing, mint, p)].parent; Live(after, parent) && after[parent].path == Stem(p)
    {
      ScannedRow(before, existing, mint, disk, after, p);
      ScannedRow(before, existing, mint, disk, after, Stem(p));
    }
    forall id | id in after ensures id == IdAt(existing, mint, after[id].path) {
      OneRowPerPath(before, existing, mint, disk, after, id);
    }
    forall id | Live(after, id) && after[id].path !in disk
      ensures Get(before, id) == Some(after[id]) && (after[id].pendingUpload || after[id].pendingDeletion)
    {
      UnscannedRow(before, existing, mint, disk, after, id);
    }
  }

  lemma UnscannedRow(before: Rows, existing: map<Path, Id>, mint: Path -> Id, disk: Disk, after: Rows, id: Id)
    requires Pass(before, existing, mint, disk, after) && OneLiveRowPerPath(before) && id in after &&
             after[id].path !in disk
    ensures after[id].isDeleted ||
            (Get(before, id) == Some(after[id]) && (after[id].pendingUpload || after[id].pendingDeletion))
  {
    OneRowPerPath(before, existing, mint, disk, after, id);
    KeptIsChosen(before, existing, id);
    assert LeftoverIsRight(Kept(before, existing), existing, after, id);
  }

  // ---- Again ------------------------------------------------------------------------------

  lemma MatchedAgain(before: Rows, existing: map<Path, Id>, mint: Path -> Id, disk: Disk, after: Rows,
                     again: map<Path, Id>, id: Id)
    requires Pass(before, existing, mint, disk, after) && OneLiveRowPerPath(before) && Chosen(after, again) &&
             id in after
    ensures Get(again, after[id].path) == Some(id)
  {
    OneRowPerPath(before, existing, mint, disk, after, id);
    OneRowPerPath(before, existing, mint, disk, after, again[after[id].path]);
  }

  lemma SameIdAgain(before: Rows, existing: map<Path, Id>, mint: Path -> Id, disk: Disk, after: Rows,
                    again: map<Path, Id>, mint': Path -> Id, p: Path)
    requires Pass(before, existing, mint, disk, after) && OneLiveRowPerPath(before) && Chosen(after, again) && p in disk
    ensures IdAt(again, mint', p) == IdAt(existing, mint, p)
  {
    ScannedRow(before, existing, mint, disk, after, p);
    MatchedAgain(before, existing, mint, disk, after, again, IdAt(existing, mint, p));
  }

  /** With one row per path there is only one way to match them, and nothing to drop. */
  lemma SecondMatch(before: Rows, existing: map<Path, Id>, mint: Path -> Id, disk: Disk, after: Rows,
                    again: map<Path, Id>, mint': Path -> Id)
    requires Pass(before, existing, mint, disk, after) && OneLiveRowPerPath(before) && Chosen(after, again)
    ensures Kept(after, again) == after
    ensures forall p :: p in disk ==> IdAt(again, mint', p) == IdAt(existing, mint, p)
    ensures forall p :: p in disk ==> ParentId(again, mint', disk, p) == ParentId(existing, mint, disk, p)
  {
    forall id | id in after ensures !Stale(after, again, id) {
      MatchedAgain(before, existing, mint, disk, after, again, id);
    }
    forall p | p in disk ensures IdAt(again, mint', p) == IdAt(existing, mint, p) {
      SameIdAgain(before, existing, mint, disk, after, again, mint', p);
    }
  }

  /** A second pass over the same disk changes no row. */
  lemma SecondPassChangesNothing(before: Rows, existing: map<Path, Id>, mint: Path -> Id, disk: Disk, after: Rows,
                                 again: map<Path, Id>, mint': Path -> Id, after': Rows)
    requires Pass(before, existing, mint, disk, after) && OneLiveRowPerPath(before) &&
             Pass(after, again, mint', disk, after')
    ensures after' == after
  {
    forall id | id in after ensures Get(after', id) == Some(after[id]) {
      SecondPassKeeps(before, existing, mint, disk, after, again, mint', after', id);
    }
    forall id | id in after' ensures id in after {
      SecondPassAdds(before, existing, mint, disk, after, again, mint', after', id);
    }
    SameTable(after, after');
  }

  lemma SameTable(a: Rows, b: Rows)
    requires (forall id :: id in a ==> Get(b, id) == Some(a[id])) && (forall id :: id in b ==> id in a)
    ensures b == a
  {
    assert forall id :: id in b ==> Get(b, id) == Some(a[id]);
  }

  lemma SecondPassKeeps(before: Rows, existing: map<Path, Id>, mint: Path -> Id, disk: Disk, after: Rows,
                        again: map<Path, Id>, mint': Path -> Id, after': Rows, id: Id)
    requires Pass(before, existing, mint, disk, after) && OneLiveRowPerPath(before) &&
             Pass(after, again, mint', disk, after')
    requires id in after
    ensures Get(after', id) == Some(after[id])
  {
    SecondMatch(before, existing, mint, disk, after, again, mint');
    OneRowPerPath(before, existing, mint, disk, after, id);
    if after[id].path in disk {
      ScannedRow(before, existing, mint, disk, after, after[id].path);
      assert RowIsRight(after, again, mint', disk, after', after[id].path);
    } else {
      UnscannedRow(before, existing, mint, disk, after, id);
      assert LeftoverIsRight(after, again, after', id);
    }
  }

  lemma SecondPassAdds(before: Rows, existing: map<Path, Id>, mint: Path -> Id, disk: Disk, after: Rows,
                       again: map<Path, Id>, mint': Path -> Id, after': Rows, id: Id)
    requires Pass(before, existing, mint, disk, after) && OneLiveRowPerPath(before) &&
             Pass(after, again, mint', disk, after')
    requires id in after'
    ensures id in after
  {
    SecondMatch(before, existing, mint, disk, after, again, mint');
    forall p | p in disk ensures p in again {
      ScannedRow(before, existing, mint, disk, after, p);
    }
    assert !IsNew(again, mint', disk, {}, id);
  }

  // ---- The table is a tree again ----------------------------------------------------------

  predicate HasItsPlace(disk: Disk, p: Path)
    requires p in disk
  {
    && NoSlash(disk[p].filename)
    && if Stem(p) == "" then p == disk[p].filename
       else Stem(p) in disk && disk[Stem(p)].isDirectory && p == Stem(p) + "/" + disk[p].filename
  }

  /** A directory tree as a scan yields it: each path is its directory's path plus a filename. */
  ghost predicate IsDirectoryTree(disk: Disk) {
    && (forall p :: p in disk ==> HasItsPlace(disk, p))
    && (forall p, q :: p in disk && q in disk && Fold(p) == Fold(q) ==> p == q)
  }

  /** Whatever the table was, with nothing pending off the disk a pass leaves it a tree. */
  lemma ReconcileMakesTree(before: Rows, existing: map<Path, Id>, mint: Path -> Id, disk: Disk, after: Rows)
    requires Pass(before, existing, mint, disk, after) && OneLiveRowPerPath(before) && IsDirectoryTree(disk)
    requires "" !in before && forall p :: mint(p) != ""
    requires forall id :: Live(before, id) && (before[id].pendingUpload || before[id].pendingDeletion) ==>
               before[id].path in disk
    ensures Tree(after)
  {
    ReconcileMirrorsDisk(before, existing, mint, disk, after);
    forall id | Live(after, id) ensures after[id].path in disk {
    }
    forall id | Live(after, id) ensures Sits(after, after[id].parent, after[id].filename, after[id].path) {
      var p := after[id].path;
      assert HasItsPlace(disk, p);
      OneRowPerPath(before, existing, mint, disk, after, id);
      assert Fits(after[id], disk[p], ParentId(existing, mint, disk, p));
      if Stem(p) != "" {
        ScannedRow(before, existing, mint, disk, after, Stem(p));
      }
    }
  }

  // ---- A row that comes back --------------------------------------------------------------

  /**
   * A tombstone that is revived keeps its pending deletion: draining after the pass removes the
   * row of a path that is on disk exactly when its match was marked for deletion.
   */
  lemma DrainRemovesRevivedIff(before: Rows, existing: map<Path, Id>, mint: Path -> Id, disk: Disk, after: Rows,
                               p: Path)
    requires Pass(before, existing, mint, disk, after) && p in disk
    ensures Live(Drained(after), IdAt(existing, mint, p)) <==> !(p in existing && before[existing[p]].pendingDeletion)
  {
    var kept, id := Kept(before, existing), IdAt(existing, mint, p);
    ScannedRow(before, existing, mint, disk, after, p);
    assert RowIsRight(kept, existing, mint, disk, after, p);
  }

  const TRASHED := Row("", "a", "a", false, Some(0), 0, false, true, true, 1)

  function Numbered(p: Path): Id { "n" + p }

  lemma NumberedIsMinted()
    ensures Minted(map["i" := TRASHED], Numbered)
  {
    forall p, q | Numbered(p) == Numbered(q) ensures p == q {
      assert p == Numbered(p)[1..] && q == Numbered(q)[1..];
    }
    forall p ensures Numbered(p) != "i" {
      assert Numbered(p)[0] == 'n';
    }
  }

  /** A file deleted in the app and back on disk: the pass revives its row and the drain removes it. */
  lemma ARevivedFileIsDrained()
    ensures var before, existing, disk :=
            map["i" := TRASHED], map["a" := "i"], map["a" := Scanned("a", false, Some(0), 0)];
            var after := map["i" := TRASHED.(isDeleted := false, version := 2)];
            Pass(before, existing, Numbered, disk, after) && Live(after, "i") && !Live(Drained(after), "i")
  {
    NumberedIsMinted();
  }
}
