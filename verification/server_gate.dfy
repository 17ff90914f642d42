/** `server/src/routes/files.rs`: the conflict-gated write and soft delete, and the revision they bump. */
module ServerGate {
  import opened Types
  import opened Manifests

  datatype Op =
    | Put(path: Path, parent: Hash, content: Hash, size: nat, encPath: string)
    | Delete(path: Path, parent: Hash)

  datatype Reply = Ok | Stale(current: FileEntry) | Refused(status: nat)

  /** A missing row takes any write; an existing row only one that names its hash, tombstone or not. */
  predicate GateOpen(files: Manifest, op: Op) {
    op.path !in files || files[op.path].hash == op.parent
  }

  /** The content of a retried upload is already live under its own hash. */
  predicate AlreadyThere(files: Manifest, op: Op) {
    op.Put? && op.path in files && !files[op.path].deleted && files[op.path].hash == op.content
  }

  predicate Writes(files: Manifest, op: Op) {
    GateOpen(files, op) && (op.Put? ==> op.content != "")
  }

  /** The row an accepted operation leaves; a tombstone keeps the hash of what it buries. */
  function Row(files: Manifest, op: Op, now: nat): FileEntry {
    var current := Get(files, op.path);
    match op
    case Put(_, _, content, size, encPath) =>
      FileEntry(content, now, size, false,
                if encPath != "" then encPath else if current.Some? then current.value.encPath else "")
    case Delete(_, _) =>
      if current.Some? then FileEntry(current.value.hash, now, current.value.size, true, current.value.encPath)
      else FileEntry("", now, 0, true, "")
  }

  function Serve(files: Manifest, op: Op, now: nat): Manifest {
    if Writes(files, op) then files[op.path := Row(files, op, now)] else files
  }

  function ReplyTo(files: Manifest, op: Op): Reply {
    if op.Put? && op.content == "" then Refused(400)
    else if GateOpen(files, op) || AlreadyThere(files, op) then Ok
    else Stale(files[op.path])
  }

  /** Every live row names its content. */
  ghost predicate LiveHashes(files: Manifest) {
    forall p :: p in files && !files[p].deleted ==> files[p].hash != ""
  }

  class VaultServer {
    var files: Manifest
    var revision: nat

    constructor ()
      ensures files == map[] && revision == 0
    {
      files, revision := map[], 0;
    }

    /** `room` is the refusal of the size and quota checks, if any. */
    method Apply(op: Op, room: Option<nat>, now: nat) returns (reply: Reply)
      modifies this
      ensures op.Put? && op.content != "" && room.Some? ==> reply == Refused(room.value) && files == old(files)
      ensures op.Delete? || op.content == "" || room.None? ==>
                files == Serve(old(files), op, now) && reply == ReplyTo(old(files), op)
      ensures revision == old(revision) || revision == old(revision) + 1
      ensures files != old(files) ==> revision == old(revision) + 1
      ensures LiveHashes(old(files)) ==> LiveHashes(files)
    {
      var current := Get(files, op.path);
      match op {
        case Put(path, parent, content, size, encPath) =>
          if content == "" {
            return Refused(400);
          }
          if room.Some? {
            return Refused(room.value);
          }
          if current.Some? && current.value.hash != parent {
            if !current.value.deleted && current.value.hash == content {
              return Ok;
            }
            return Stale(current.value);
          }
          var kept := if encPath != "" then encPath else if current.Some? then current.value.encPath else "";
          files := files[path := FileEntry(content, now, size, false, kept)];
        case Delete(path, parent) =>
          if current.Some? && current.value.hash != parent {
            return Stale(current.value);
          }
          var tombstone := if current.Some?
            then FileEntry(current.value.hash, now, current.value.size, true, current.value.encPath)
            else FileEntry("", now, 0, true, "");
          files := files[path := tombstone];
      }
      revision := revision + 1;
      reply := Ok;
    }
  }

  /**
   * Sending an accepted operation again, because its reply was lost, is answered `Ok` and leaves
   * every version alone, except for one family: a delete of a row that never existed, sent with
   * a parent, is answered with a conflict the second time.
   */
  lemma RetryIsHarmless(files: Manifest, op: Op, now: nat, later: nat)
    requires Writes(files, op)
    ensures var once := Serve(files, op, now);
            && (forall p :: At(Serve(once, op, later), p) == At(once, p))
            && (ReplyTo(once, op) == Ok <==> !(op.Delete? && op.path !in files && op.parent != ""))
  {
    var once := Serve(files, op, now);
    forall p ensures At(Serve(once, op, later), p) == At(once, p) {
      assert p != op.path ==> Get(once, p) == Get(files, p);
    }
  }
}
