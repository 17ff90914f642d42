/** `core/src/hash_cache.rs` and `core/src/hasher.rs`: the walk with a `(mtime, size)` memo. */
module HashMemo {
  import opened Types

  type Key = nat
  type Content = string

  /** The keyed content hash and the label that fingerprints a cache to its key. */
  type Mac = (Key, Content) -> Hash
  const LABEL: Content := "obsink:hash-cache:v1"

  datatype File = File(stat: Stat, content: Content)
  type FileSystem = map<Path, File>

  datatype CacheEntry = CacheEntry(stat: Stat, hash: Hash)
  type Entries = map<Path, CacheEntry>

  function FileEntryOf(stat: Stat, hash: Hash): FileEntry {
    FileEntry(hash, stat.mtimeSecs, stat.size, false, "")
  }

  /** A full rehash. */
  function ColdManifest(mac: Mac, key: Key, fs: FileSystem, ignore: IgnoreRules): Manifest {
    map p | p in fs && !ignore(p) :: FileEntryOf(fs[p].stat, mac(key, fs[p].content))
  }

  predicate Hit(entries: Entries, p: Path, stat: Stat) {
    p in entries && entries[p].stat == stat
  }

  function MemoHash(mac: Mac, key: Key, entries: Entries, fs: FileSystem, p: Path): Hash
    requires p in fs
  {
    if Hit(entries, p, fs[p].stat) then entries[p].hash else mac(key, fs[p].content)
  }

  /** What a walk with the memo returns, and the memo it leaves. */
  function WarmManifest(mac: Mac, key: Key, entries: Entries, fs: FileSystem, ignore: IgnoreRules): Manifest {
    map p | p in fs && !ignore(p) :: FileEntryOf(fs[p].stat, MemoHash(mac, key, entries, fs, p))
  }

  function WarmEntries(mac: Mac, key: Key, entries: Entries, fs: FileSystem, ignore: IgnoreRules): Entries {
    map p | p in fs && !ignore(p) :: CacheEntry(fs[p].stat, MemoHash(mac, key, entries, fs, p))
  }

  datatype Saved = Saved(keyId: Hash, entries: Entries)

  class HashCache {
    var keyId: Hash
    var entries: Entries

    /** The saved cache, or an empty one when there is none or it belongs to another key. */
    constructor Load(saved: Option<Saved>, mac: Mac, key: Key)
      ensures keyId == mac(key, LABEL)
      ensures entries == Loaded(mac, key, saved)
    {
      var expected := mac(key, LABEL);
      keyId := expected;
      entries := if saved.Some? && saved.value.keyId == expected then saved.value.entries else map[];
    }

    method Lookup(path: Path, stat: Stat) returns (hash: Option<Hash>)
      ensures hash == if Hit(entries, path, stat) then Some(entries[path].hash) else None
    {
      hash := if path in entries && entries[path].stat == stat then Some(entries[path].hash) else None;
    }

    method Insert(path: Path, stat: Stat, hash: Hash)
      modifies this`entries
      ensures entries == old(entries)[path := CacheEntry(stat, hash)]
    {
      entries := entries[path := CacheEntry(stat, hash)];
    }

    method RetainPaths(seen: set<Path>)
      modifies this`entries
      ensures entries == map p | p in old(entries) && p in seen :: old(entries)[p]
    {
      entries := map p | p in entries && p in seen :: entries[p];
    }
  }

  function Loaded(mac: Mac, key: Key, saved: Option<Saved>): Entries {
    if saved.Some? && saved.value.keyId == mac(key, LABEL) then saved.value.entries else map[]
  }

  /** The memo part-way: paths walked so far are refreshed, the others are as they were. */
  ghost predicate HalfWalked(mac: Mac, key: Key, before: Entries, fs: FileSystem, ignore: IgnoreRules, todo: set<Path>,
                             entries: Entries, manifest: Manifest) {
    && manifest == (map p | p in fs && p !in todo && !ignore(p) ::
                      FileEntryOf(fs[p].stat, MemoHash(mac, key, before, fs, p)))
    && forall p :: Get(entries, p) ==
         if p in fs && p !in todo && !ignore(p) then Some(CacheEntry(fs[p].stat, MemoHash(mac, key, before, fs, p)))
         else Get(before, p)
  }

  /** One more path walked: hashed into both, or ignored and in neither. */
  lemma WalkedOneMore(mac: Mac, key: Key, before: Entries, fs: FileSystem, ignore: IgnoreRules, todo: set<Path>,
                      entries: Entries, manifest: Manifest, p: Path)
    requires HalfWalked(mac, key, before, fs, ignore, todo, entries, manifest) && p in todo && p in fs
    ensures ignore(p) ==> HalfWalked(mac, key, before, fs, ignore, todo - {p}, entries, manifest)
    ensures !ignore(p) ==> Get(entries, p) == Get(before, p)
    ensures !ignore(p) ==>
              var hash := MemoHash(mac, key, before, fs, p);
              HalfWalked(mac, key, before, fs, ignore, todo - {p}, entries[p := CacheEntry(fs[p].stat, hash)],
                         manifest[p := FileEntryOf(fs[p].stat, hash)])
  {
    if ignore(p) {
      assert forall q :: q in fs && q !in todo && !ignore(q) <==> q in fs && q !in todo - {p} && !ignore(q);
    } else {
      assert forall q :: q in fs && q !in todo - {p} && !ignore(q) <==> q == p || (q in fs && q !in todo && !ignore(q));
    }
  }

  lemma WalkedAll(mac: Mac, key: Key, before: Entries, fs: FileSystem, ignore: IgnoreRules, seen: set<Path>,
                  entries: Entries, manifest: Manifest)
    requires HalfWalked(mac, key, before, fs, ignore, {}, entries, manifest)
    requires seen == set p | p in fs && !ignore(p)
    ensures manifest == WarmManifest(mac, key, before, fs, ignore)
    ensures (map p | p in entries && p in seen :: entries[p]) == WarmEntries(mac, key, before, fs, ignore)
  {
    var kept := map p | p in entries && p in seen :: entries[p];
    var warm := WarmEntries(mac, key, before, fs, ignore);
    forall p ensures Get(kept, p) == Get(warm, p) {
      assert p in seen ==> Get(entries, p) == Some(CacheEntry(fs[p].stat, MemoHash(mac, key, before, fs, p)));
    }
    SameGets(kept, warm);
  }

  lemma SameGets(a: Entries, b: Entries)
    requires forall p :: Get(a, p) == Get(b, p)
    ensures a == b
  {
    assert forall p :: p in a ==> Get(a, p) == Get(b, p) && a[p] == b[p];
    assert forall p :: p in b ==> Get(a, p) == Get(b, p);
  }

  /** One file's hash, from the memo or by reading it. */
  method HashFile(mac: Mac, key: Key, fs: FileSystem, readable: Path -> bool, cache: HashCache, p: Path)
    returns (hash: Option<Hash>)
    requires p in fs
    modifies cache`entries
    ensures hash.None? <==> !readable(p) && !Hit(old(cache.entries), p, fs[p].stat)
    ensures hash.Some? ==> hash.value == MemoHash(mac, key, old(cache.entries), fs, p)
    ensures hash.Some? ==> cache.entries == old(cache.entries)[p := CacheEntry(fs[p].stat, hash.value)]
    ensures hash.None? ==> cache.entries == old(cache.entries)
  {
    var stat := fs[p].stat;
    hash := cache.Lookup(p, stat);
    if hash.None? && readable(p) {
      hash := Some(mac(key, fs[p].content));
      cache.Insert(p, stat, hash.value);
    }
  }

  /** A file the walk cannot hash: it has to be read and cannot. */
  predicate Fails(entries: Entries, fs: FileSystem, readable: Path -> bool, ignore: IgnoreRules, p: Path) {
    p in fs && !ignore(p) && !readable(p) && !Hit(entries, p, fs[p].stat)
  }

  /** The walk, in any order; a file that cannot be read fails it. */
  method BuildManifestWithCache(mac: Mac, key: Key, fs: FileSystem, readable: Path -> bool, cache: HashCache,
                                ignore: IgnoreRules)
    returns (r: Option<Manifest>)
    modifies cache`entries
    ensures r.Some? ==> r.value == WarmManifest(mac, key, old(cache.entries), fs, ignore)
    ensures r.Some? ==> cache.entries == WarmEntries(mac, key, old(cache.entries), fs, ignore)
    ensures r.None? <==> exists p :: Fails(old(cache.entries), fs, readable, ignore, p)
  {
    ghost var before := cache.entries;
    var manifest: Manifest, seen: set<Path>, todo := map[], {}, fs.Keys;
    while todo != {}
      invariant todo <= fs.Keys
      invariant seen == set p | p in fs && p !in todo && !ignore(p)
      invariant HalfWalked(mac, key, before, fs, ignore, todo, cache.entries, manifest)
      invariant forall p :: Fails(before, fs, readable, ignore, p) ==> p in todo
      decreases todo
    {
      var p :| p in todo;
      WalkedOneMore(mac, key, before, fs, ignore, todo, cache.entries, manifest, p);
      todo := todo - {p};
      if !ignore(p) {
        assert Hit(cache.entries, p, fs[p].stat) == Hit(before, p, fs[p].stat);
        var hash := HashFile(mac, key, fs, readable, cache, p);
        if hash.None? {
          assert Fails(before, fs, readable, ignore, p);
          return None;
        }
        manifest := manifest[p := FileEntryOf(fs[p].stat, hash.value)];
        seen := seen + {p};
      }
    }
    WalkedAll(mac, key, before, fs, ignore, seen, cache.entries, manifest);
    cache.RetainPaths(seen);
    r := Some(manifest);
  }

  /** The bet the memo makes: the walk is a full rehash exactly when no hit serves another content's hash. */
  lemma WarmIsColdIff(mac: Mac, key: Key, entries: Entries, fs: FileSystem, ignore: IgnoreRules)
    ensures WarmManifest(mac, key, entries, fs, ignore) == ColdManifest(mac, key, fs, ignore) <==>
              forall p :: p in fs && !ignore(p) && Hit(entries, p, fs[p].stat) ==>
                    entries[p].hash == mac(key, fs[p].content)
    ensures WarmEntries(mac, key, entries, fs, ignore).Keys == WarmManifest(mac, key, entries, fs, ignore).Keys
  {
    var warm, cold := WarmManifest(mac, key, entries, fs, ignore), ColdManifest(mac, key, fs, ignore);
    if warm == cold {
      forall p | p in fs && !ignore(p) && Hit(entries, p, fs[p].stat)
        ensures entries[p].hash == mac(key, fs[p].content)
      {
        assert warm[p] == cold[p];
      }
    }
  }

  // ---- Runs -------------------------------------------------------------------------------

  /** A walk of whatever is on disk then, its cache saved or not; or the cache file is lost or corrupted. */
  datatype Event = Walk(fs: FileSystem, key: Key, ignore: IgnoreRules, saves: bool) | Lose

  ghost function SavedAfter(mac: Mac, events: seq<Event>): Option<Saved> {
    if events == [] then None
    else
      var before, e := SavedAfter(mac, events[..|events| - 1]), events[|events| - 1];
      match e
      case Lose => None
      case Walk(fs, key, ignore, saves) =>
        if saves
        then Some(Saved(mac(key, LABEL), WarmEntries(mac, key, Loaded(mac, key, before), fs, ignore)))
        else before
  }

  /** Across the whole run, a path with the same stat pair has the same content. */
  ghost predicate StatsIdentify(events: seq<Event>, content: (Path, Stat) -> Content) {
    forall k, p :: 0 <= k < |events| && events[k].Walk? && p in events[k].fs ==>
      events[k].fs[p].content == content(p, events[k].fs[p].stat)
  }

  ghost predicate KeysApart(mac: Mac) {
    forall k, k' :: mac(k, LABEL) == mac(k', LABEL) ==> k == k'
  }

  ghost predicate HashedUnder(mac: Mac, key: Key, content: (Path, Stat) -> Content, saved: Saved) {
    && saved.keyId == mac(key, LABEL)
    && forall p :: p in saved.entries ==> saved.entries[p].hash == mac(key, content(p, saved.entries[p].stat))
  }

  ghost predicate Truthful(mac: Mac, content: (Path, Stat) -> Content, saved: Option<Saved>) {
    saved.Some? ==> exists key :: HashedUnder(mac, key, content, saved.value)
  }

  lemma {:induction false} SavedIsTruthful(mac: Mac, events: seq<Event>, content: (Path, Stat) -> Content)
    requires StatsIdentify(events, content) && KeysApart(mac)
    ensures Truthful(mac, content, SavedAfter(mac, events))
  {
    if events != [] {
      var front, e := events[..|events| - 1], events[|events| - 1];
      assert forall k :: 0 <= k < |front| ==> front[k] == events[k];
      SavedIsTruthful(mac, front, content);
      if e.Walk? && e.saves {
        var entries := Loaded(mac, e.key, SavedAfter(mac, front));
        var after := WarmEntries(mac, e.key, entries, e.fs, e.ignore);
        forall p | p in after ensures after[p].hash == mac(e.key, content(p, after[p].stat)) {
          assert e.fs[p].content == content(p, e.fs[p].stat);
        }
        assert HashedUnder(mac, e.key, content, Saved(mac(e.key, LABEL), after));
      }
    }
  }

  /**
   * Over any sequence of edits, key changes, walks and lost caches in which equal path and stat
   * mean equal content, every walk returns exactly what a full rehash would.
   */
  lemma EveryWalkIsARehash(mac: Mac, events: seq<Event>, content: (Path, Stat) -> Content, fs: FileSystem, key: Key,
                           ignore: IgnoreRules)
    requires StatsIdentify(events + [Walk(fs, key, ignore, true)], content) && KeysApart(mac)
    ensures WarmManifest(mac, key, Loaded(mac, key, SavedAfter(mac, events)), fs, ignore) ==
            ColdManifest(mac, key, fs, ignore)
  {
    var all := events + [Walk(fs, key, ignore, true)];
    assert forall k :: 0 <= k < |events| ==> all[k] == events[k];
    assert all[|events|] == Walk(fs, key, ignore, true);
    SavedIsTruthful(mac, events, content);
    WarmIsColdIff(mac, key, Loaded(mac, key, SavedAfter(mac, events)), fs, ignore);
  }
}
