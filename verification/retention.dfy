/** `server/src/retention.rs`: pruning old versions and trash. */
module Retention {
  import opened Types
  import opened Sorting
  import opened HistoryNames
  import opened BlobStorage

  const MAX_VERSIONS_PER_FILE: nat := 10
  const VERSION_RETENTION_SECS: nat := 14 * 24 * 60 * 60
  const TRASH_RETENTION_SECS: nat := 30 * 24 * 60 * 60

  /** Retention sorts by the second alone. */
  function StampKey(name: string): Order {
    Order(ExtractTimestamp(name), 0)
  }

  function KeptFor(tier: Tier): nat {
    if tier == Versions then VERSION_RETENTION_SECS else TRASH_RETENTION_SECS
  }

  function Age(now: nat, ts: nat): nat {
    if now >= ts then now - ts else 0
  }

  predicate Stale(tier: Tier, ts: nat, now: nat) {
    Age(now, ts) > KeptFor(tier)
  }

  predicate Expires(tier: Tier, index: nat, ts: nat, now: nat) {
    (tier == Versions && index >= MAX_VERSIONS_PER_FILE) || Stale(tier, ts, now)
  }

  predicate Goes(tier: Tier, sorted: seq<string>, now: nat, k: nat)
    requires k < |sorted|
  {
    Expires(tier, k, ExtractTimestamp(sorted[k]), now)
  }

  /** What is left of the first `n` entries of a sorted directory. */
  function Left(tier: Tier, sorted: seq<string>, now: nat, n: nat): seq<string>
    requires n <= |sorted|
  {
    if n == 0 then []
    else Left(tier, sorted, now, n - 1) + if Goes(tier, sorted, now, n - 1) then [] else [sorted[n - 1]]
  }

  function Survivors(tier: Tier, entries: seq<string>, now: nat): seq<string> {
    var sorted := SortNewestFirst(StampKey, entries);
    Left(tier, sorted, now, |sorted|)
  }

  // ---- Timestamps -------------------------------------------------------------------------

  function Stamps(names: seq<string>): (r: seq<nat>)
    ensures |r| == |names|
  {
    Keys(ExtractTimestamp, names)
  }

  ghost predicate Descending(s: seq<nat>) {
    forall i, j :: 0 <= i < j < |s| ==> s[i] >= s[j]
  }

  /** How many timestamps are within the retention period. */
  function CountFresh(tier: Tier, stamps: seq<nat>, now: nat): nat {
    if stamps == [] then 0
    else CountFresh(tier, stamps[..|stamps| - 1], now) + if Stale(tier, stamps[|stamps| - 1], now) then 0 else 1
  }

  function Lesser(a: nat, b: nat): nat {
    if a < b then a else b
  }

  function Capped(tier: Tier, n: nat): nat {
    if tier == Versions then Lesser(n, MAX_VERSIONS_PER_FILE) else n
  }

  /** How many entries a prune may keep. */
  function Quota(tier: Tier, stamps: seq<nat>, now: nat): nat {
    Capped(tier, CountFresh(tier, stamps, now))
  }

  /** In a sorted directory the fresh entries come first. */
  lemma {:induction false} FreshComeFirst(tier: Tier, stamps: seq<nat>, now: nat)
    requires Descending(stamps)
    ensures CountFresh(tier, stamps, now) <= |stamps|
    ensures forall k :: 0 <= k < |stamps| ==> (Stale(tier, stamps[k], now) <==> k >= CountFresh(tier, stamps, now))
  {
    if stamps != [] {
      FreshComeFirst(tier, stamps[..|stamps| - 1], now);
    }
  }

  /** Pruning a sorted directory keeps its newest entries, as many as the quota allows. */
  lemma {:induction false} LeftIsPrefix(tier: Tier, sorted: seq<string>, now: nat, n: nat, quota: nat)
    requires n <= |sorted| && quota <= |sorted|
    requires forall k: nat :: k < |sorted| ==> (Goes(tier, sorted, now, k) <==> k >= quota)
    ensures Left(tier, sorted, now, n) == sorted[..Lesser(n, quota)]
  {
    if n > 0 {
      LeftIsPrefix(tier, sorted, now, n - 1, quota);
      assert Goes(tier, sorted, now, n - 1) <==> n - 1 >= quota;
      assert n <= quota ==> sorted[..n] == sorted[..n - 1] + [sorted[n - 1]];
    }
  }

  lemma GoesPastQuota(tier: Tier, sorted: seq<string>, now: nat)
    requires Descending(Stamps(sorted))
    ensures var quota := Quota(tier, Stamps(sorted), now);
            quota <= |sorted| && forall k: nat :: k < |sorted| ==> (Goes(tier, sorted, now, k) <==> k >= quota)
  {
    var stamps := Stamps(sorted);
    FreshComeFirst(tier, stamps, now);
    forall k: nat | k < |sorted| ensures Goes(tier, sorted, now, k) <==> k >= Quota(tier, stamps, now) {
      assert stamps[k] == ExtractTimestamp(sorted[k]);
    }
  }

  lemma SortedStampsDescend(entries: seq<string>)
    ensures Descending(Stamps(SortNewestFirst(StampKey, entries)))
  {
    var sorted := SortNewestFirst(StampKey, entries);
    SortSorts(StampKey, entries);
    forall i, j | 0 <= i < j < |sorted| ensures Stamps(sorted)[i] >= Stamps(sorted)[j] {
      assert !Before(StampKey(sorted[i]), StampKey(sorted[j]));
    }
  }

  lemma {:induction false} OneDescent(a: seq<nat>, b: seq<nat>)
    requires Descending(a) && Descending(b) && multiset(a) == multiset(b)
    ensures a == b
  {
    SameCount(a, b);
    if a != [] {
      SameTop(a, b);
      TailCounts(a);
      TailCounts(b);
      OneDescent(a[1..], b[1..]);
      assert a == [a[0]] + a[1..] && b == [b[0]] + b[1..];
    }
  }

  lemma SameTop(a: seq<nat>, b: seq<nat>)
    requires Descending(a) && Descending(b) && a != [] && b != [] && forall x :: x in a <==> x in b
    ensures a[0] == b[0]
  {
    assert a[0] in b && b[0] in a;
  }

  /** The timestamps of a directory, newest first, do not depend on the order it is read in. */
  lemma SortedStampsAgree(a: seq<string>, b: seq<string>)
    requires multiset(a) == multiset(b)
    ensures Stamps(SortNewestFirst(StampKey, a)) == Stamps(SortNewestFirst(StampKey, b))
  {
    SortSorts(StampKey, a);
    SortSorts(StampKey, b);
    SortedStampsDescend(a);
    SortedStampsDescend(b);
    KeysFollow(ExtractTimestamp, SortNewestFirst(StampKey, a), SortNewestFirst(StampKey, b));
    OneDescent(Stamps(SortNewestFirst(StampKey, a)), Stamps(SortNewestFirst(StampKey, b)));
  }

  lemma SurvivorsArePrefix(tier: Tier, entries: seq<string>, now: nat)
    ensures var sorted := SortNewestFirst(StampKey, entries);
            && Quota(tier, Stamps(sorted), now) <= |sorted|
            && Survivors(tier, entries, now) == sorted[..Quota(tier, Stamps(sorted), now)]
  {
    var sorted := SortNewestFirst(StampKey, entries);
    SortedStampsDescend(entries);
    GoesPastQuota(tier, sorted, now);
    LeftIsPrefix(tier, sorted, now, |sorted|, Quota(tier, Stamps(sorted), now));
    assert Survivors(tier, entries, now) == sorted[..Quota(tier, Stamps(sorted), now)];
  }

  /** A prune keeps exactly the newest `Quota` timestamps. */
  lemma PruneKeepsTheNewest(tier: Tier, entries: seq<string>, now: nat)
    ensures var stamps := Stamps(SortNewestFirst(StampKey, entries));
            && Quota(tier, stamps, now) <= |stamps|
            && Stamps(Survivors(tier, entries, now)) == stamps[..Quota(tier, stamps, now)]
            && Descending(stamps) && multiset(stamps) == multiset(Stamps(entries))
  {
    SurvivorsArePrefix(tier, entries, now);
    SortedStampsDescend(entries);
    SortSorts(StampKey, entries);
    KeysFollow(ExtractTimestamp, SortNewestFirst(StampKey, entries), entries);
  }

  lemma {:induction false} CountOfPrefix(tier: Tier, stamps: seq<nat>, now: nat, n: nat)
    requires Descending(stamps) && n <= |stamps|
    ensures CountFresh(tier, stamps[..n], now) == Lesser(n, CountFresh(tier, stamps, now))
  {
    FreshComeFirst(tier, stamps, now);
    if n < |stamps| {
      var front := stamps[..|stamps| - 1];
      CountOfPrefix(tier, front, now, n);
      FreshComeFirst(tier, front, now);
      assert front[..n] == stamps[..n];
    } else {
      assert stamps[..n] == stamps;
    }
  }

  lemma {:induction false} CountFalls(tier: Tier, stamps: seq<nat>, t1: nat, t2: nat)
    requires t1 <= t2
    ensures CountFresh(tier, stamps, t2) <= CountFresh(tier, stamps, t1)
  {
    if stamps != [] {
      CountFalls(tier, stamps[..|stamps| - 1], t1, t2);
    }
  }

  lemma QuotaOfPrefix(tier: Tier, stamps: seq<nat>, t1: nat, t2: nat)
    requires Descending(stamps) && t1 <= t2 && Quota(tier, stamps, t1) <= |stamps|
    ensures Quota(tier, stamps[..Quota(tier, stamps, t1)], t2) == Quota(tier, stamps, t2) <= Quota(tier, stamps, t1)
  {
    CountOfPrefix(tier, stamps, t2, Quota(tier, stamps, t1));
    CountFalls(tier, stamps, t1, t2);
  }

  /** The timestamps a prune keeps, from the timestamps there are, newest first. */
  ghost predicate KeepsStamps(tier: Tier, stamps: seq<nat>, now: nat, left: seq<nat>) {
    Descending(stamps) && Quota(tier, stamps, now) <= |stamps| && left == stamps[..Quota(tier, stamps, now)]
  }

  lemma KeptStamps(tier: Tier, entries: seq<string>, same: seq<string>, now: nat)
    requires multiset(same) == multiset(entries)
    ensures KeepsStamps(tier, Stamps(SortNewestFirst(StampKey, entries)), now, Stamps(Survivors(tier, same, now)))
  {
    PruneKeepsTheNewest(tier, same, now);
    SortedStampsAgree(same, entries);
  }

  lemma StampsCompose(tier: Tier, stamps: seq<nat>, left1: seq<nat>, left2: seq<nat>, once: seq<nat>, t1: nat, t2: nat)
    requires t1 <= t2 && KeepsStamps(tier, stamps, t1, left1) && KeepsStamps(tier, left1, t2, left2) &&
             KeepsStamps(tier, stamps, t2, once)
    ensures left2 == once
  {
    QuotaOfPrefix(tier, stamps, t1, t2);
  }

  /**
   * Pruning now and again later leaves the same timestamps as pruning once, later, whatever order each pass
   * reads in.
   */
  lemma PruningComposes(tier: Tier, entries: seq<string>, again: seq<string>, once: seq<string>, t1: nat, t2: nat)
    requires t1 <= t2 && multiset(once) == multiset(entries)
    requires multiset(again) == multiset(Survivors(tier, entries, t1))
    ensures Stamps(Survivors(tier, again, t2)) == Stamps(Survivors(tier, once, t2))
  {
    var stamps, left1 := Stamps(SortNewestFirst(StampKey, entries)), Stamps(Survivors(tier, entries, t1));
    KeptStamps(tier, entries, entries, t1);
    KeptStamps(tier, again, again, t2);
    KeptStamps(tier, entries, once, t2);
    SortedStampsOf(Survivors(tier, entries, t1), again);
    StampsCompose(tier, stamps, left1, Stamps(Survivors(tier, again, t2)), Stamps(Survivors(tier, once, t2)), t1, t2);
  }

  lemma SortedStampsOf(sorted: seq<string>, again: seq<string>)
    requires Descending(Stamps(sorted)) && multiset(again) == multiset(sorted)
    ensures Stamps(SortNewestFirst(StampKey, again)) == Stamps(sorted)
  {
    SortSorts(StampKey, again);
    SortedStampsDescend(again);
    KeysFollow(ExtractTimestamp, SortNewestFirst(StampKey, again), sorted);
    OneDescent(Stamps(SortNewestFirst(StampKey, again)), Stamps(sorted));
  }

  // ---- Which entries survive --------------------------------------------------------------

  /** Entries that stand in order already are left in the order they were read. */
  lemma {:induction false} SortedStay(key: string -> Order, entries: seq<string>)
    requires NewestFirst(key, entries)
    ensures SortNewestFirst(key, entries) == entries
  {
    if entries != [] {
      var front, last := entries[..|entries| - 1], entries[|entries| - 1];
      SortedStay(key, front);
      GoesLast(key, front, last);
    }
  }

  lemma {:induction false} GoesLast(key: string -> Order, sorted: seq<string>, name: string)
    requires forall k :: 0 <= k < |sorted| ==> !Before(key(sorted[k]), key(name))
    ensures Place(key, sorted, name) == sorted + [name]
  {
    if sorted != [] {
      GoesLast(key, sorted[1..], name);
    }
  }

  /** The newest `q` in the listing's own order are kept, whatever order the directory is read in. */
  ghost predicate AlwaysKeepsTheHead(tier: Tier, entries: seq<string>, now: nat, q: nat)
    requires q <= |ListHistory(entries)|
  {
    forall order :: multiset(order) == multiset(entries) ==>
      multiset(Survivors(tier, order, now)) == multiset(ListHistory(entries)[..q])
  }

  /** The cut does not fall between two entries of one second. */
  predicate CutIsClean(stamps: seq<nat>, q: nat) {
    0 < q < |stamps| ==> stamps[q - 1] > stamps[q]
  }

  lemma ListedStamps(entries: seq<string>)
    ensures |ListHistory(entries)| == |entries| && multiset(ListHistory(entries)) == multiset(entries)
    ensures NewestFirst(StampKey, ListHistory(entries))
    ensures Stamps(ListHistory(entries)) == Stamps(SortNewestFirst(StampKey, entries))
  {
    var listed := ListHistory(entries);
    SortSorts(HistoryOrder, entries);
    forall i, j | 0 <= i < j < |listed| ensures !Before(StampKey(listed[i]), StampKey(listed[j])) {
      assert !Before(HistoryOrder(listed[i]), HistoryOrder(listed[j]));
      assert HistoryOrder(listed[i]).ts == StampKey(listed[i]).ts &&
               HistoryOrder(listed[j]).ts == StampKey(listed[j]).ts;
    }
    SortedStay(StampKey, listed);
    SortedStampsAgree(listed, entries);
  }

  /** Two arrangements cut between the same two seconds have the same entries before the cut. */
  lemma SameHead(a: seq<string>, b: seq<string>, q: nat)
    requires multiset(a) == multiset(b) && Stamps(a) == Stamps(b) && Descending(Stamps(a)) && q <= |a|
    requires CutIsClean(Stamps(a), q)
    ensures |a| == |b| && multiset(a[..q]) == multiset(b[..q])
  {
    SameCount(a, b);
    if q == |a| {
      assert a[..q] == a && b[..q] == b;
    } else if q > 0 {
      var s := Stamps(a)[q];
      HeadIsNewer(ExtractTimestamp, a, q, s);
      HeadIsNewer(ExtractTimestamp, b, q, s);
      SameFront((x: string) => ExtractTimestamp(x) > s, a, b, q);
    }
  }

  lemma HeadIsNewer(stamp: string -> nat, a: seq<string>, q: nat, s: nat)
    requires 0 < q < |a| && Descending(Keys(stamp, a)) && Keys(stamp, a)[q - 1] > Keys(stamp, a)[q] == s
    ensures forall x :: x in a[..q] ==> stamp(x) > s
    ensures forall x :: x in a[q..] ==> stamp(x) <= s
  {
    var stamps := Keys(stamp, a);
    forall k | 0 <= k < q ensures stamps[k] > s {
      assert k < q - 1 ==> stamps[k] >= stamps[q - 1];
    }
  }

  lemma CleanCutKeepsTheHead(tier: Tier, entries: seq<string>, now: nat)
    requires CutIsClean(Stamps(SortNewestFirst(StampKey, entries)),
                        Quota(tier, Stamps(SortNewestFirst(StampKey, entries)), now))
    ensures var q := Quota(tier, Stamps(SortNewestFirst(StampKey, entries)), now);
            q <= |ListHistory(entries)| && AlwaysKeepsTheHead(tier, entries, now, q)
  {
    var stamps := Stamps(SortNewestFirst(StampKey, entries));
    var q := Quota(tier, stamps, now);
    ListedStamps(entries);
    SurvivorsArePrefix(tier, entries, now);
    SortedStampsDescend(entries);
    SortSorts(StampKey, entries);
    forall order | multiset(order) == multiset(entries)
      ensures multiset(Survivors(tier, order, now)) == multiset(ListHistory(entries)[..q])
    {
      SurvivorsArePrefix(tier, order, now);
      SortedStampsAgree(order, entries);
      SortSorts(StampKey, order);
      SameHead(SortNewestFirst(StampKey, order), ListHistory(entries), q);
    }
  }

  function Swapped(s: seq<string>, q: nat): (r: seq<string>)
    requires 0 < q < |s|
    ensures |r| == |s| && r[q - 1] == s[q] && r[q] == s[q - 1]
    ensures forall k :: 0 <= k < |s| && k != q - 1 && k != q ==> r[k] == s[k]
  {
    s[q - 1 := s[q]][q := s[q - 1]]
  }

  /** Read with the two entries at the cut exchanged, the newer of them is the one that goes. */
  lemma UncleanCutLosesOne(tier: Tier, entries: seq<string>, now: nat, q: nat)
    requires Distinct(entries) && |ListHistory(entries)| == |entries| && 0 < q < |entries|
    requires q == Quota(tier, Stamps(SortNewestFirst(StampKey, entries)), now)
    requires !CutIsClean(Stamps(SortNewestFirst(StampKey, entries)), q)
    ensures !AlwaysKeepsTheHead(tier, entries, now, q)
  {
    var listed := ListHistory(entries);
    var order := Swapped(listed, q);
    ListedStamps(entries);
    SortedStampsDescend(entries);
    SwapKeeps(listed, q);
    SwappedSurvivors(tier, entries, order, now, q);
    DistinctFollows(entries, listed);
    SwapLoses(listed, q);
  }

  lemma SwappedSurvivors(tier: Tier, entries: seq<string>, order: seq<string>, now: nat, q: nat)
    requires multiset(order) == multiset(entries) && NewestFirst(StampKey, order)
    requires q == Quota(tier, Stamps(SortNewestFirst(StampKey, entries)), now) <= |order|
    ensures Survivors(tier, order, now) == order[..q]
  {
    SortedStay(StampKey, order);
    SortedStampsAgree(order, entries);
    SurvivorsArePrefix(tier, order, now);
  }

  lemma SwapKeeps(listed: seq<string>, q: nat)
    requires 0 < q < |listed| && NewestFirst(StampKey, listed) && Stamps(listed)[q - 1] == Stamps(listed)[q]
    ensures multiset(Swapped(listed, q)) == multiset(listed) && NewestFirst(StampKey, Swapped(listed, q))
  {
    SwapInOrder(StampKey, listed, q);
  }

  lemma SwapInOrder(key: string -> Order, listed: seq<string>, q: nat)
    requires 0 < q < |listed| && NewestFirst(key, listed) && key(listed[q - 1]) == key(listed[q])
    ensures multiset(Swapped(listed, q)) == multiset(listed) && NewestFirst(key, Swapped(listed, q))
  {
  }

  lemma SwapLoses(listed: seq<string>, q: nat)
    requires 0 < q < |listed| && Distinct(listed)
    ensures multiset(Swapped(listed, q)[..q]) != multiset(listed[..q])
  {
    var order := Swapped(listed, q);
    assert order[..q][q - 1] == listed[q];
    assert listed[q] in multiset(order[..q]) && listed[q] !in multiset(listed[..q]);
  }

  /**
   * Retention sorts by the second alone. It keeps exactly the head of the listing, whatever order
   * the directory is read in, if and only if its cut does not fall between two entries of one second.
   */
  lemma KeepsTheHeadIff(tier: Tier, entries: seq<string>, now: nat)
    requires Distinct(entries)
    ensures var stamps := Stamps(SortNewestFirst(StampKey, entries));
            var q := Quota(tier, stamps, now);
            q <= |ListHistory(entries)| && (AlwaysKeepsTheHead(tier, entries, now, q) <==> CutIsClean(stamps, q))
  {
    var stamps := Stamps(SortNewestFirst(StampKey, entries));
    var q := Quota(tier, stamps, now);
    ListedStamps(entries);
    SurvivorsArePrefix(tier, entries, now);
    SortSorts(StampKey, entries);
    if CutIsClean(stamps, q) {
      CleanCutKeepsTheHead(tier, entries, now);
    } else {
      UncleanCutLosesOne(tier, entries, now, q);
    }
  }

  /** The trash has no limit on entries, so its cut is always clean. */
  lemma TrashKeepsTheHead(entries: seq<string>, now: nat)
    ensures var q := Quota(Trashed, Stamps(SortNewestFirst(StampKey, entries)), now);
            q <= |ListHistory(entries)| && AlwaysKeepsTheHead(Trashed, entries, now, q)
  {
    SortedStampsDescend(entries);
    FreshComeFirst(Trashed, Stamps(SortNewestFirst(StampKey, entries)), now);
    CleanCutKeepsTheHead(Trashed, entries, now);
  }

  /** A concrete case: of eleven versions of one second, read oldest first, the newest is the one that goes. */
  lemma SameSecondMayLoseTheNewest(entries: seq<string>, now: nat)
    requires now < U64 && |entries| == MAX_VERSIONS_PER_FILE + 1
    requires forall k :: 0 <= k < |entries| ==> entries[k] == Name(now, k)
    ensures Name(now, MAX_VERSIONS_PER_FILE) !in Survivors(Versions, entries, now)
    ensures ListHistory(entries)[..1] == [Name(now, MAX_VERSIONS_PER_FILE)]
  {
    forall k: nat | k < |entries|
      ensures HistoryOrder(entries[k]) == Order(now, k) && StampKey(entries[k]) == Order(now, 0)
    {
      NameReadsBack(now, k);
    }
    SortedStay(StampKey, entries);
    SurvivorsArePrefix(Versions, entries, now);
    forall k: nat | k < MAX_VERSIONS_PER_FILE ensures entries[k] != Name(now, MAX_VERSIONS_PER_FILE) {
      if Name(now, k) == Name(now, MAX_VERSIONS_PER_FILE) {
        NamesApart(now, k, MAX_VERSIONS_PER_FILE);
      }
    }
    SortSorts(HistoryOrder, entries);
    HighestListsFirst(HistoryOrder, entries, now, ListHistory(entries));
  }

  lemma HighestListsFirst(key: string -> Order, entries: seq<string>, now: nat, listed: seq<string>)
    requires |entries| > 0 && |listed| == |entries| && NewestFirst(key, listed) &&
             forall x :: x in listed <==> x in entries
    requires forall k :: 0 <= k < |entries| ==> key(entries[k]) == Order(now, k)
    ensures listed[0] == entries[|entries| - 1]
  {
    var last := |entries| - 1;
    assert listed[0] in entries;
    var k :| 0 <= k < |entries| && entries[k] == listed[0];
    assert entries[last] in listed;
    var j :| 0 <= j < |listed| && listed[j] == entries[last];
    assert key(listed[0]) == Order(now, k) && key(listed[j]) == Order(now, last);
  }

  // ---- The pass over a tier ---------------------------------------------------------------

  /** A directory's entries, each once, in some order. */
  ghost predicate Lists(history: map<Slot, Blob>, tier: Tier, path: Path, entries: seq<string>) {
    Distinct(entries) && forall name :: name in entries <==> Slot(tier, path, name) in history
  }

  method ReadDir(store: BlobStore, tier: Tier, path: Path) returns (entries: seq<string>)
    ensures Lists(store.history, tier, path, entries)
  {
    var todo := set slot | slot in store.history && slot.tier == tier && slot.path == path :: slot.name;
    entries := [];
    while todo != {}
      invariant forall name :: name in todo ==> name !in entries
      invariant forall name :: name in entries || name in todo <==> Slot(tier, path, name) in store.history
      invariant Distinct(entries)
      decreases todo
    {
      var name :| name in todo;
      todo := todo - {name};
      entries := entries + [name];
    }
  }

  /** One directory pruned: the survivors stay under their names and nothing else in the history changes. */
  ghost predicate DirPruned(before: map<Slot, Blob>, after: map<Slot, Blob>, tier: Tier, path: Path, now: nat) {
    exists entries :: Lists(before, tier, path, entries) &&
        LeavesOnly(before, after, tier, path, Survivors(tier, entries, now))
  }

  ghost predicate LeavesOnly(before: map<Slot, Blob>, after: map<Slot, Blob>, tier: Tier, path: Path,
                             names: seq<string>) {
    && (forall slot :: slot in after ==> slot in before && after[slot] == before[slot])
    && (forall slot :: slot in before && !(slot.tier == tier && slot.path == path) ==> slot in after)
    && (forall name :: Slot(tier, path, name) in after <==> name in names)
  }

  method PruneDir(store: BlobStore, tier: Tier, path: Path, now: nat) returns (removed: nat)
    modifies store`history
    ensures DirPruned(old(store.history), store.history, tier, path, now)
    ensures removed + |store.history| == |old(store.history)|
  {
    ghost var before := store.history;
    var entries := ReadDir(store, tier, path);
    var sorted := SortNewestFirst(StampKey, entries);
    SortSorts(StampKey, entries);
    DistinctFollows(entries, sorted);
    removed := 0;
    var index := 0;
    while index < |sorted|
      invariant index <= |sorted|
      invariant PrunedUpTo(before, store.history, tier, path, sorted, now, index)
      invariant removed + |store.history| == |before|
    {
      var name := sorted[index];
      assert Goes(tier, sorted, now, index) <==> Expires(tier, index, ExtractTimestamp(name), now);
      if Expires(tier, index, ExtractTimestamp(name), now) {
        PrunedOneMore(before, store.history, tier, path, sorted, now, index);
        store.history := store.history - {Slot(tier, path, name)};
        removed := removed + 1;
      }
      index := index + 1;
    }
    AllPruned(before, store.history, tier, path, entries, sorted, now);
  }

  /** The first `n` entries looked at, the others as they were. */
  ghost predicate PrunedUpTo(before: map<Slot, Blob>, after: map<Slot, Blob>, tier: Tier, path: Path,
                             sorted: seq<string>, now: nat, n: nat)
    requires n <= |sorted|
  {
    && (forall slot :: slot in after ==> slot in before && after[slot] == before[slot])
    && (forall slot :: slot in before && !(slot.tier == tier && slot.path == path) ==> slot in after)
    && (forall k :: 0 <= k < |sorted| ==>
        (Slot(tier, path, sorted[k]) in after <==> k >= n || !Goes(tier, sorted, now, k)))
  }

  lemma PrunedOneMore(before: map<Slot, Blob>, after: map<Slot, Blob>, tier: Tier, path: Path, sorted: seq<string>,
                      now: nat, n: nat)
    requires n < |sorted| && PrunedUpTo(before, after, tier, path, sorted, now, n) && Distinct(sorted)
    requires Goes(tier, sorted, now, n)
    ensures var slot := Slot(tier, path, sorted[n]);
            slot in after && PrunedUpTo(before, after - {slot}, tier, path, sorted, now, n + 1)
  {
    var after' := after - {Slot(tier, path, sorted[n])};
    forall k | 0 <= k < |sorted|
      ensures Slot(tier, path, sorted[k]) in after' <==> k >= n + 1 || !Goes(tier, sorted, now, k)
    {
      assert sorted[k] == sorted[n] <==> k == n;
    }
  }

  lemma {:induction false} LeftMembers(tier: Tier, sorted: seq<string>, now: nat, n: nat)
    requires n <= |sorted| && Distinct(sorted)
    ensures forall k :: 0 <= k < |sorted| ==>
              (sorted[k] in Left(tier, sorted, now, n) <==> k < n && !Goes(tier, sorted, now, k))
    ensures forall x :: x in Left(tier, sorted, now, n) ==> x in sorted
  {
    forall k | 0 <= k < |sorted|
      ensures sorted[k] in Left(tier, sorted, now, n) <==> k < n && !Goes(tier, sorted, now, k)
    {
      LeftMember(tier, sorted, now, n, k);
    }
    LeftWithin(tier, sorted, now, n);
  }

  lemma {:induction false} LeftMember(tier: Tier, sorted: seq<string>, now: nat, n: nat, k: nat)
    requires n <= |sorted| && k < |sorted| && Distinct(sorted)
    ensures sorted[k] in Left(tier, sorted, now, n) <==> k < n && !Goes(tier, sorted, now, k)
  {
    if n > 0 {
      LeftMember(tier, sorted, now, n - 1, k);
      assert sorted[k] in [sorted[n - 1]] <==> k == n - 1;
      var front := Left(tier, sorted, now, n - 1);
      assert Left(tier, sorted, now, n) == front + if Goes(tier, sorted, now, n - 1) then [] else [sorted[n - 1]];
    }
  }

  lemma {:induction false} LeftWithin(tier: Tier, sorted: seq<string>, now: nat, n: nat)
    requires n <= |sorted|
    ensures forall x :: x in Left(tier, sorted, now, n) ==> x in sorted
  {
    if n > 0 {
      LeftWithin(tier, sorted, now, n - 1);
    }
  }

  lemma AllPruned(before: map<Slot, Blob>, after: map<Slot, Blob>, tier: Tier, path: Path, entries: seq<string>,
                  sorted: seq<string>, now: nat)
    requires sorted == SortNewestFirst(StampKey, entries) && Distinct(sorted) && Lists(before, tier, path, entries)
    requires forall x :: x in sorted <==> x in entries
    requires PrunedUpTo(before, after, tier, path, sorted, now, |sorted|)
    ensures DirPruned(before, after, tier, path, now)
  {
    var names := Survivors(tier, entries, now);
    LeftMembers(tier, sorted, now, |sorted|);
    forall name ensures Slot(tier, path, name) in after <==> name in names {
      if Slot(tier, path, name) in after || name in names {
        assert name in sorted;
        var k :| 0 <= k < |sorted| && sorted[k] == name;
      }
    }
    assert LeavesOnly(before, after, tier, path, names);
  }

  /** A path's directory holds the survivors of what it held before. */
  ghost predicate DirLeft(before: map<Slot, Blob>, after: map<Slot, Blob>, tier: Tier, path: Path, now: nat) {
    exists entries :: Lists(before, tier, path, entries) &&
      forall name :: Slot(tier, path, name) in after <==> name in Survivors(tier, entries, now)
  }

  /** A whole tier pruned: every directory, and nothing outside the tier. */
  ghost predicate TierPruned(before: map<Slot, Blob>, after: map<Slot, Blob>, tier: Tier, now: nat) {
    && (forall slot :: slot in after ==> slot in before && after[slot] == before[slot])
    && (forall slot :: slot in before && slot.tier != tier ==> slot in after)
    && (forall path :: DirLeft(before, after, tier, path, now))
  }

  ghost predicate PassUnderWay(before: map<Slot, Blob>, after: map<Slot, Blob>, tier: Tier, now: nat, todo: set<Path>) {
    && (forall slot :: slot in after ==> slot in before && after[slot] == before[slot])
    && (forall slot :: slot in before && (slot.tier != tier || slot.path in todo) ==> slot in after)
    && (forall path :: path !in todo ==> DirLeft(before, after, tier, path, now))
  }

  lemma EmptyDirLeft(before: map<Slot, Blob>, tier: Tier, path: Path, now: nat)
    requires forall slot :: slot in before && slot.tier == tier ==> slot.path != path
    ensures DirLeft(before, before, tier, path, now)
  {
    assert Lists(before, tier, path, []);
    assert Survivors(tier, [], now) == [];
  }

  lemma DirUntouched(before: map<Slot, Blob>, mid: map<Slot, Blob>, after: map<Slot, Blob>, tier: Tier, path: Path,
                     now: nat)
    requires DirLeft(before, mid, tier, path, now)
    requires forall name :: Slot(tier, path, name) in mid <==> Slot(tier, path, name) in after
    ensures DirLeft(before, after, tier, path, now)
  {
    var entries :| Lists(before, tier, path, entries) &&
      forall name :: Slot(tier, path, name) in mid <==> name in Survivors(tier, entries, now);
  }

  lemma PassOneMore(before: map<Slot, Blob>, mid: map<Slot, Blob>, after: map<Slot, Blob>, tier: Tier, now: nat,
                    todo: set<Path>, path: Path)
    requires PassUnderWay(before, mid, tier, now, todo) && path in todo && DirPruned(mid, after, tier, path, now)
    ensures PassUnderWay(before, after, tier, now, todo - {path})
  {
    var entries :| Lists(mid, tier, path, entries) && LeavesOnly(mid, after, tier, path, Survivors(tier, entries, now));
    assert forall name :: Slot(tier, path, name) in mid <==> Slot(tier, path, name) in before;
    assert Lists(before, tier, path, entries);
    assert DirLeft(before, after, tier, path, now);
    forall other | other !in todo ensures DirLeft(before, after, tier, other, now) {
      DirUntouched(before, mid, after, tier, other, now);
    }
  }

  /** `prune_versions` and `prune_trash`: every history directory of the tier, in any order. */
  method PruneTier(store: BlobStore, tier: Tier, now: nat) returns (removed: nat)
    modifies store`history
    ensures TierPruned(old(store.history), store.history, tier, now)
    ensures removed + |store.history| == |old(store.history)|
  {
    ghost var before := store.history;
    var todo := set slot | slot in store.history && slot.tier == tier :: slot.path;
    removed := 0;
    forall path | path !in todo ensures DirLeft(before, before, tier, path, now) {
      EmptyDirLeft(before, tier, path, now);
    }
    while todo != {}
      invariant PassUnderWay(before, store.history, tier, now, todo)
      invariant removed + |store.history| == |before|
      decreases todo
    {
      var path :| path in todo;
      ghost var mid := store.history;
      var n := PruneDir(store, tier, path, now);
      PassOneMore(before, mid, store.history, tier, now, todo, path);
      removed := removed + n;
      todo := todo - {path};
    }
  }

  lemma SurvivorsDistinct(tier: Tier, entries: seq<string>, now: nat)
    requires Distinct(entries)
    ensures Distinct(Survivors(tier, entries, now))
  {
    SortSorts(StampKey, entries);
    DistinctFollows(entries, SortNewestFirst(StampKey, entries));
    SurvivorsArePrefix(tier, entries, now);
  }

  lemma LeftAsListed(before: map<Slot, Blob>, after: map<Slot, Blob>, tier: Tier, path: Path, now: nat,
                     entries: seq<string>, left: seq<string>)
    requires Lists(before, tier, path, entries) && Lists(after, tier, path, left)
    requires forall name :: Slot(tier, path, name) in after <==> name in Survivors(tier, entries, now)
    ensures multiset(left) == multiset(Survivors(tier, entries, now))
  {
    SurvivorsDistinct(tier, entries, now);
    SameWhenDistinct(left, Survivors(tier, entries, now));
  }

  /** A pass at `t1` and one at `t2 >= t1` leave each directory the timestamps one pass at `t2` would. */
  lemma PassesCompose(h: map<Slot, Blob>, h1: map<Slot, Blob>, h2: map<Slot, Blob>, once: map<Slot, Blob>, tier: Tier,
                      t1: nat, t2: nat, path: Path, left2: seq<string>, leftOnce: seq<string>)
    requires t1 <= t2 && TierPruned(h, h1, tier, t1) && TierPruned(h1, h2, tier, t2) && TierPruned(h, once, tier, t2)
    requires Lists(h2, tier, path, left2) && Lists(once, tier, path, leftOnce)
    ensures multiset(Stamps(left2)) == multiset(Stamps(leftOnce))
  {
    assert DirLeft(h, h1, tier, path, t1) && DirLeft(h1, h2, tier, path, t2) && DirLeft(h, once, tier, path, t2);
    var e1 :| Lists(h, tier, path, e1) &&
        forall name :: Slot(tier, path, name) in h1 <==> name in Survivors(tier, e1, t1);
    var e2 :| Lists(h1, tier, path, e2) &&
        forall name :: Slot(tier, path, name) in h2 <==> name in Survivors(tier, e2, t2);
    var e :| Lists(h, tier, path, e) &&
        forall name :: Slot(tier, path, name) in once <==> name in Survivors(tier, e, t2);
    LeftAsListed(h, h1, tier, path, t1, e1, e2);
    LeftAsListed(h1, h2, tier, path, t2, e2, left2);
    LeftAsListed(h, once, tier, path, t2, e, leftOnce);
    SameWhenDistinct(e, e1);
    PruningComposes(tier, e1, e2, e, t1, t2);
    KeysFollow(ExtractTimestamp, left2, Survivors(tier, e2, t2));
    KeysFollow(ExtractTimestamp, leftOnce, Survivors(tier, e, t2));
  }
}
