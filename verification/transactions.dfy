/** `apply_put` and `apply_delete` of `server/src/routes/files.rs`: rows and blobs changed together. */
module Transactions {
  import opened Types
  import opened Manifests
  import opened ServerGate
  import opened BlobStorage

  /** The rows of a vault and its blobs, a blob stood for by its content hash. */
  datatype Vault = Vault(files: Manifest, store: Store)

  /**
   * How a request ends. `Fails` is a transaction reported as failed: the database may have applied it
   * all the same, and the undo that follows may fail to remove the live blob or to move the old one
   * back. `BlobFails` is a blob write that fails after the old blob was archived, or a crash at that
   * point; `Crashes` is a crash after the blobs changed and before the commit.
   */
  datatype End = Commits | Fails(applied: bool, removes: bool, moves: bool) | BlobFails | Crashes

  datatype Request = Request(op: Op, now: nat, end: End)

  /** The blob change a request makes; an upload archives what is there if the row is live. */
  function ChangeOf(files: Manifest, op: Op): Change {
    if op.Put? then Replace(op.path, op.content, At(files, op.path).Present?) else Trash(op.path)
  }

  ghost function NameFor(v: Vault, r: Request): string {
    FreshName(v.store.history, if r.op.Put? then Versions else Trashed, r.op.path, r.now)
  }

  ghost function Handle(v: Vault, r: Request): Vault {
    var c, name := ChangeOf(v.files, r.op), NameFor(v, r);
    if !Writes(v.files, r.op) then v
    else
      match r.end
      case Commits => Vault(Serve(v.files, r.op, r.now), Changed(v.store, c, name))
      case Fails(applied, removes, moves) =>
        Vault(if applied then Serve(v.files, r.op, r.now) else v.files,
              UndoneWith(Changed(v.store, c, name), TokenOf(v.store, c, name), removes, moves))
      case BlobFails =>
        if c.Replace? && c.archive then v.(store := Moved(v.store, Slot(Versions, c.path, name))) else v
      case Crashes => v.(store := Changed(v.store, c, name))
  }

  /** Each live row has its blob and no other path has one. */
  ghost predicate Agree(v: Vault) {
    forall p :: At(v.files, p) == BlobVersion(v.store, p)
  }

  function BlobVersion(s: Store, p: Path): Version {
    if p in s.live then Present(s.live[p]) else Gone
  }

  /** A transaction that was rolled back and an undo that works. */
  predicate RollsBack(end: End) {
    end == Fails(false, true, true)
  }

  /** While rows and blobs agree nothing live is written over unarchived, so a roll-back restores everything. */
  lemma RollBackRestores(v: Vault, r: Request)
    requires Agree(v) && RollsBack(r.end)
    ensures Handle(v, r) == v
  {
    var c, name := ChangeOf(v.files, r.op), NameFor(v, r);
    assert At(v.files, c.path).Present? <==> c.path in v.store.live;
    UndoRestoresIff(v.store, c, name);
  }

  /** What the request was meant to leave at its path. */
  function Wanted(op: Op): Version {
    if op.Put? then Present(op.content) else Gone
  }

  /** The version whose blob an accepted request leaves live, when the row held `was` before. */
  function BlobLeft(was: Version, op: Op, end: End): Version {
    match end
    case Commits => Wanted(op)
    case Crashes => Wanted(op)
    case BlobFails => if op.Put? then Gone else was
    case Fails(_, removes, moves) => if moves && was.Present? then was else if removes then Gone else Wanted(op)
  }

  /** The version its row shows. */
  function RowLeft(was: Version, op: Op, end: End): Version {
    if end.Commits? || (end.Fails? && end.applied) then Wanted(op) else was
  }

  /** An accepted request that ends with its row and its blob at different versions. */
  predicate Tears(files: Manifest, r: Request) {
    var was := At(files, r.op.path);
    Writes(files, r.op) && BlobLeft(was, r.op, r.end) != RowLeft(was, r.op, r.end)
  }

  /**
   * A request keeps rows and blobs in agreement exactly when it does not tear. What tears: a blob
   * write that fails over a live file; a crash before the commit; a commit that was applied although
   * it was reported as failed, whenever it changed the version; and an undo that fails, unless there
   * was nothing to take back.
   */
  lemma AgreementIsKeptIff(v: Vault, r: Request)
    requires Agree(v)
    ensures Agree(Handle(v, r)) <==> !Tears(v.files, r)
    ensures RollsBack(r.end) || r.end.Commits? ==> !Tears(v.files, r)
    ensures r.end == Fails(true, true, true) && Writes(v.files, r.op) ==>
              (Tears(v.files, r) <==> At(v.files, r.op.path) != Wanted(r.op))
    ensures r.end == Fails(false, false, false) && Writes(v.files, r.op) ==>
              (Tears(v.files, r) <==> At(v.files, r.op.path) != Wanted(r.op))
  {
    var p, v' := r.op.path, Handle(v, r);
    assert At(v.files, p) == BlobVersion(v.store, p);
    if Writes(v.files, r.op) {
      RowsLeft(v, r);
      BlobsLeft(v, r);
      forall q | q != p ensures At(v'.files, q) == BlobVersion(v'.store, q) {
        assert At(v.files, q) == BlobVersion(v.store, q);
      }
      assert Agree(v') <==> At(v'.files, p) == BlobVersion(v'.store, p);
    }
  }

  lemma RowsLeft(v: Vault, r: Request)
    requires Writes(v.files, r.op)
    ensures var files, p := Handle(v, r).files, r.op.path;
            At(files, p) == RowLeft(At(v.files, p), r.op, r.end) &&
            forall q :: q != p ==> At(files, q) == At(v.files, q)
  {
    forall q | q != r.op.path ensures Get(Handle(v, r).files, q) == Get(v.files, q) {
    }
  }

  lemma BlobsLeft(v: Vault, r: Request)
    requires Writes(v.files, r.op) && At(v.files, r.op.path) == BlobVersion(v.store, r.op.path)
    ensures var store, p := Handle(v, r).store, r.op.path;
            && BlobVersion(store, p) == BlobLeft(At(v.files, p), r.op, r.end)
            && forall q :: q != p ==> BlobVersion(store, q) == BlobVersion(v.store, q)
  {
    var c, name := ChangeOf(v.files, r.op), NameFor(v, r);
    assert FreeFor(v.store, c, name);
    match r.end
    case Fails(_, removes, moves) => UndoneAt(v.store, c, name, removes, moves);
    case BlobFails => ChangedAt(v.store, c, name);
    case _ => ChangedAt(v.store, c, name);
  }

  /** One change of the blobs, path by path. */
  lemma ChangedAt(s: Store, c: Change, name: string)
    ensures var s' := Changed(s, c, name);
            && BlobVersion(s', c.path) == (if c.Replace? then Present(c.blob) else Gone)
            && forall q :: q != c.path ==> BlobVersion(s', q) == BlobVersion(s, q)
    ensures var s' := Moved(s, Slot(TierOf(c), c.path, name));
            && BlobVersion(s', c.path).Gone? && forall q :: q != c.path ==> BlobVersion(s', q) == BlobVersion(s, q)
  {
  }

  lemma UndoneAt(s: Store, c: Change, name: string, removes: bool, moves: bool)
    requires FreeFor(s, c, name) && (c.Replace? ==> (c.archive <==> c.path in s.live))
    ensures var s', was := UndoneWith(Changed(s, c, name), TokenOf(s, c, name), removes, moves), BlobVersion(s, c.path);
            && BlobVersion(s', c.path) ==
                 (if moves && was.Present? then was else if removes || c.Trash? then Gone else Present(c.blob))
            && forall q :: q != c.path ==> BlobVersion(s', q) == BlobVersion(s, q)
  {
    ChangedAt(s, c, name);
  }

  /** One live file, its blob in place, and an upload of another version of it. */
  ghost const NOTE: Vault := Vault(map["a" := FileEntry("h", 0, 0, false, "a")], Store(map["a" := "h"], map[]))
  ghost const EDIT: Op := Put("a", "h", "k", 0, "a")

  /** Each of the four families at one request: row and blob end at different versions. */
  lemma ARequestTears(end: End)
    requires end in {BlobFails, Crashes, Fails(true, true, true), Fails(false, false, false)}
    ensures Agree(NOTE) && !Agree(Handle(NOTE, Request(EDIT, 0, end)))
  {
    forall p ensures At(NOTE.files, p) == BlobVersion(NOTE.store, p) {
    }
    AgreementIsKeptIff(NOTE, Request(EDIT, 0, end));
  }

  ghost function AfterAll(requests: seq<Request>): Vault {
    if requests == [] then Vault(map[], Store(map[], map[]))
    else Handle(AfterAll(requests[..|requests| - 1]), requests[|requests| - 1])
  }

  /**
   * Over any run of uploads and deletes, accepted, refused, rolled back or failed, none of which tears, the row
   * and the file agree.
   */
  lemma {:induction false} RowAndFileAgree(requests: seq<Request>)
    requires forall k :: 0 <= k < |requests| ==> !Tears(AfterAll(requests[..k]).files, requests[k])
    ensures Agree(AfterAll(requests))
  {
    if requests != [] {
      var front := requests[..|requests| - 1];
      forall k | 0 <= k < |front| ensures front[..k] == requests[..k] && front[k] == requests[k] {
      }
      RowAndFileAgree(requests[..|requests| - 1]);
      AgreementIsKeptIff(AfterAll(requests[..|requests| - 1]), requests[|requests| - 1]);
    }
  }
}
