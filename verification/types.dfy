/** The records of `core/src/types.rs` that the sync cycle passes around. */
module Types {

  /** A vault-relative path with `/` separators. */
  type Path = string

  /** A keyed content hash in hex; the empty string only ever marks "no hash". */
  type Hash = string

  datatype Option<+T> = None | Some(value: T)

  function Get<K, V>(m: map<K, V>, k: K): Option<V> {
    if k in m then Some(m[k]) else None
  }

  datatype FileEntry = FileEntry(hash: Hash, modified: nat, size: nat, deleted: bool, encPath: string)

  type Manifest = map<Path, FileEntry>

  datatype SyncActionKind = Upload | Download | DeleteLocal | DeleteRemote

  datatype SyncAction =
    SyncAction(path: Path, kind: SyncActionKind, local: Option<FileEntry>, remote: Option<FileEntry>)

  datatype Conflict = Conflict(path: Path, local: FileEntry, remote: FileEntry)

  /** One transfer that did not happen; `fatal` marks a systemic error. */
  datatype SyncFailure = SyncFailure(path: Path, kind: SyncActionKind, fatal: bool)

  datatype Choice = KeepLocal | KeepRemote | KeepBoth | Defer

  datatype SyncPlan =
    SyncPlan(upload: seq<SyncAction>, download: seq<SyncAction>, conflicts: seq<Conflict>,
             failures: seq<SyncFailure>)

  /** A file's modification time at nanosecond resolution and its length. */
  datatype Stat = Stat(mtimeSecs: nat, mtimeNanos: nat, size: nat)

  /** The ignore rules of one vault: true for a path that never syncs. */
  type IgnoreRules = Path -> bool
}
