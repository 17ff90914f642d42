/** `fetch_remote_manifest` and `remote_changed` of `core/src/sync_engine.rs`: the ETag manifest cache. */
module ManifestCache {
  import opened Types
  import opened ServerGate

  /** The server's validator is its revision, which every accepted write bumps. */
  datatype RemoteCache = RemoteCache(etag: Option<nat>, manifest: Manifest)

  datatype Fetch = NotModified | Modified(manifest: Manifest, etag: Option<nat>)

  /**
   * A conditional request: 304 when the validator still names the current revision (sections 8.8.3 and 13.1.2
   * of RFC 9110).
   */
  method GetManifestIfChanged(server: VaultServer, etag: Option<nat>, sendsEtag: bool) returns (f: Fetch)
    ensures f.NotModified? <==> etag == Some(server.revision)
    ensures f.Modified? ==> f == Modified(server.files, if sendsEtag then Some(server.revision) else None)
  {
    f := if etag == Some(server.revision) then NotModified
         else Modified(server.files, if sendsEtag then Some(server.revision) else None);
  }

  /** A cached manifest is current whenever its validator is. */
  ghost predicate Coherent(cache: Option<RemoteCache>, files: Manifest, revision: nat) {
    cache.Some? && cache.value.etag.Some? ==>
      && cache.value.etag.value <= revision
      && (cache.value.etag.value == revision ==> cache.value.manifest == files)
  }

  class CacheFile {
    /** Missing and corrupt files read alike. */
    var cache: Option<RemoteCache>

    constructor ()
      ensures cache == None
    {
      cache := None;
    }

    method Save(c: RemoteCache, works: bool)
      modifies this
      ensures cache == if works then Some(c) else old(cache)
    {
      if works {
        cache := Some(c);
      }
    }

    /** The server's current manifest, whether it came over the wire or from the cache. */
    method FetchRemoteManifest(server: VaultServer, sendsEtag: bool, saveWorks: bool) returns (m: Manifest)
      requires Coherent(cache, server.files, server.revision)
      modifies this
      ensures m == server.files
      ensures Coherent(cache, server.files, server.revision)
      ensures cache == Refreshed(old(cache), server.files, server.revision, sendsEtag && saveWorks)
    {
      var cached := if cache.Some? && cache.value.etag.Some? then cache else None;
      var f := GetManifestIfChanged(server, if cached.Some? then cached.value.etag else None, sendsEtag);
      match f {
        case NotModified =>
          if cached.Some? {
            m := cached.value.manifest;
          } else {
            // No validator was sent, so the server cannot answer 304.
            assert false;
            m := map[];
          }
        case Modified(manifest, etag) =>
          if etag.Some? {
            Save(RemoteCache(etag, manifest), saveWorks);
          }
          m := manifest;
      }
    }

    /** Whether the server's manifest differs from the cached one; `false` only when the cached copy is current. */
    method RemoteChanged(server: VaultServer, sendsEtag: bool, saveWorks: bool) returns (changed: bool)
      requires Coherent(cache, server.files, server.revision)
      modifies this
      ensures changed <==> !Current(old(cache), server.revision)
      ensures !changed ==> old(cache).Some? && old(cache).value.manifest == server.files
      ensures Coherent(cache, server.files, server.revision)
      ensures cache == if old(cache).Some? && old(cache).value.etag.Some?
                       then Refreshed(old(cache), server.files, server.revision, sendsEtag && saveWorks) else old(cache)
    {
      var cached := if cache.Some? && cache.value.etag.Some? then cache else None;
      if cached.None? {
        return true;
      }
      var f := GetManifestIfChanged(server, cached.value.etag, sendsEtag);
      match f {
        case NotModified => changed := false;
        case Modified(manifest, etag) =>
          if etag.Some? {
            Save(RemoteCache(etag, manifest), saveWorks);
          }
          changed := true;
      }
    }
  }

  predicate Current(cache: Option<RemoteCache>, revision: nat) {
    cache.Some? && cache.value.etag == Some(revision)
  }

  /** The cache file after a conditional fetch; `saved` tells whether a fresh copy could be kept. */
  function Refreshed(cache: Option<RemoteCache>, files: Manifest, revision: nat, saved: bool): Option<RemoteCache> {
    if !Current(cache, revision) && saved then Some(RemoteCache(Some(revision), files)) else cache
  }

  // ---- Runs -------------------------------------------------------------------------------

  datatype State = State(files: Manifest, revision: nat, cache: Option<RemoteCache>)

  /** Any device's write, a fetch or poll of this device (its copy kept or not), or the cache file lost. */
  datatype Event = Write(op: Op, now: nat) | FetchNow(saved: bool) | Poll(saved: bool) | LoseCache

  ghost function Next(s: State, e: Event): State {
    match e
    case Write(op, now) =>
      if Writes(s.files, op) then s.(files := Serve(s.files, op, now), revision := s.revision + 1) else s
    case FetchNow(saved) => s.(cache := Refreshed(s.cache, s.files, s.revision, saved))
    case Poll(saved) =>
      if s.cache.Some? && s.cache.value.etag.Some? then s.(cache := Refreshed(s.cache, s.files, s.revision, saved))
          else s
    case LoseCache => s.(cache := None)
  }

  ghost function After(events: seq<Event>): State {
    if events == [] then State(map[], 0, None) else Next(After(events[..|events| - 1]), events[|events| - 1])
  }

  /** What a fetch hands out: the cached copy on 304, the server's manifest otherwise. */
  ghost function Handed(s: State): Manifest {
    if Current(s.cache, s.revision) then s.cache.value.manifest else s.files
  }

  /**
   * In any interleaving of server writes, fetches, polls, lost caches and failed saves, a fetch
   * hands out the server's current manifest, and a poll that answers "unchanged" holds a current copy.
   */
  lemma {:induction false} FetchIsNeverStale(events: seq<Event>)
    ensures var s := After(events);
            && Coherent(s.cache, s.files, s.revision)
            && Handed(s) == s.files
            && (Current(s.cache, s.revision) ==> s.cache.value.manifest == s.files)
  {
    if events != [] {
      FetchIsNeverStale(events[..|events| - 1]);
    }
  }
}
