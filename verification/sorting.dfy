/** The stable `sort_by_key(|x| Reverse(key(x)))` of `server/src/blobs.rs` and `server/src/retention.rs`. */
module Sorting {

  /** The timestamp and suffix a history entry sorts by. */
  datatype Order = Order(ts: nat, suffix: nat)

  predicate Before(a: Order, b: Order) {
    a.ts < b.ts || (a.ts == b.ts && a.suffix < b.suffix)
  }

  ghost predicate NewestFirst<T(!new)>(key: T -> Order, s: seq<T>) {
    forall i, j :: 0 <= i < j < |s| ==> !Before(key(s[i]), key(s[j]))
  }

  ghost predicate StrictlyNewestFirst<T(!new)>(key: T -> Order, s: seq<T>) {
    forall i, j :: 0 <= i < j < |s| ==> Before(key(s[j]), key(s[i]))
  }

  /** Puts an entry behind every entry that is not older. */
  function Place<T>(key: T -> Order, sorted: seq<T>, x: T): seq<T> {
    if sorted == [] || Before(key(sorted[0]), key(x)) then [x] + sorted
    else [sorted[0]] + Place(key, sorted[1..], x)
  }

  function SortNewestFirst<T>(key: T -> Order, entries: seq<T>): seq<T> {
    if entries == [] then []
    else Place(key, SortNewestFirst(key, entries[..|entries| - 1]), entries[|entries| - 1])
  }

  lemma {:induction false} PlaceKeepsAll<T(!new)>(key: T -> Order, sorted: seq<T>, x: T)
    ensures multiset(Place(key, sorted, x)) == multiset(sorted) + multiset{x}
  {
    if sorted != [] && !Before(key(sorted[0]), key(x)) {
      PlaceKeepsAll(key, sorted[1..], x);
      assert sorted == [sorted[0]] + sorted[1..];
    }
  }

  lemma {:induction false} PlaceKeepsOrder<T(!new)>(key: T -> Order, sorted: seq<T>, x: T)
    requires NewestFirst(key, sorted)
    ensures NewestFirst(key, Place(key, sorted, x))
  {
    var r := Place(key, sorted, x);
    if sorted != [] && !Before(key(sorted[0]), key(x)) {
      var rest := Place(key, sorted[1..], x);
      PlaceKeepsOrder(key, sorted[1..], x);
      PlaceKeepsAll(key, sorted[1..], x);
      forall k | 0 <= k < |rest| ensures !Before(key(sorted[0]), key(rest[k])) {
        assert rest[k] in multiset(rest);
        assert rest[k] == x || rest[k] in sorted[1..];
      }
    }
  }

  lemma {:induction false} SortSorts<T(!new)>(key: T -> Order, entries: seq<T>)
    ensures NewestFirst(key, SortNewestFirst(key, entries))
    ensures multiset(SortNewestFirst(key, entries)) == multiset(entries)
    ensures |SortNewestFirst(key, entries)| == |entries|
    ensures forall x :: x in SortNewestFirst(key, entries) <==> x in entries
  {
    if entries != [] {
      var front, last := entries[..|entries| - 1], entries[|entries| - 1];
      SortSorts(key, front);
      PlaceKeepsAll(key, SortNewestFirst(key, front), last);
      PlaceKeepsOrder(key, SortNewestFirst(key, front), last);
      assert entries == front + [last];
    }
    SameCount(SortNewestFirst(key, entries), entries);
  }

  lemma SameCount<T(!new)>(a: seq<T>, b: seq<T>)
    requires multiset(a) == multiset(b)
    ensures |a| == |b|
    ensures forall x :: x in a <==> x in b
  {
    assert |multiset(a)| == |a| && |multiset(b)| == |b|;
    assert forall x :: x in a <==> x in multiset(a);
    assert forall x :: x in b <==> x in multiset(b);
  }

  /** Only one arrangement of distinct keys is in order. */
  lemma {:induction false} OneOrder<T(!new)>(key: T -> Order, a: seq<T>, b: seq<T>)
    requires StrictlyNewestFirst(key, a) && NewestFirst(key, b) && multiset(a) == multiset(b)
    ensures a == b
  {
    SameCount(a, b);
    if a != [] {
      SameFirst(key, a, b);
      TailCounts(a);
      TailCounts(b);
      OneOrder(key, a[1..], b[1..]);
      assert a == [a[0]] + a[1..] && b == [b[0]] + b[1..];
    }
  }

  lemma SameFirst<T(!new)>(key: T -> Order, a: seq<T>, b: seq<T>)
    requires StrictlyNewestFirst(key, a) && NewestFirst(key, b) && a != [] && b != [] && forall x :: x in a <==> x in b
    ensures a[0] == b[0]
  {
    assert a[0] in b && b[0] in a;
  }

  lemma TailCounts<T(!new)>(s: seq<T>)
    requires s != []
    ensures multiset(s[1..]) == multiset(s) - multiset{s[0]}
  {
    assert s == [s[0]] + s[1..];
  }

  lemma WithoutCounts<T(!new)>(s: seq<T>, j: nat)
    requires j < |s|
    ensures multiset(s[..j] + s[j + 1..]) == multiset(s) - multiset{s[j]}
  {
    assert s == s[..j] + [s[j]] + s[j + 1..];
  }

  ghost predicate Distinct<T(!new)>(s: seq<T>) {
    forall i, j :: 0 <= i < j < |s| ==> s[i] != s[j]
  }

  lemma {:induction false} EachOnce<T(!new)>(s: seq<T>)
    requires Distinct(s)
    ensures forall x :: multiset(s)[x] == if x in s then 1 else 0
  {
    if s != [] {
      EachOnce(s[1..]);
      assert s == [s[0]] + s[1..];
      assert s[0] !in s[1..];
    }
  }

  lemma SameWhenDistinct<T(!new)>(a: seq<T>, b: seq<T>)
    requires Distinct(a) && Distinct(b) && forall x :: x in a <==> x in b
    ensures multiset(a) == multiset(b)
  {
    EachOnce(a);
    EachOnce(b);
  }

  function Keys<T(!new), U>(f: T -> U, s: seq<T>): (r: seq<U>)
    ensures |r| == |s| && forall k :: 0 <= k < |s| ==> r[k] == f(s[k])
  {
    seq(|s|, k requires 0 <= k < |s| => f(s[k]))
  }

  lemma {:induction false} KeysFollow<T(!new), U(!new)>(f: T -> U, a: seq<T>, b: seq<T>)
    requires multiset(a) == multiset(b)
    ensures multiset(Keys(f, a)) == multiset(Keys(f, b))
  {
    SameCount(a, b);
    if a != [] {
      var j := IndexOf(b, a[0]);
      var b' := b[..j] + b[j + 1..];
      TailCounts(a);
      WithoutCounts(b, j);
      KeysFollow(f, a[1..], b');
      KeysOfTail(f, a);
      KeysWithout(f, b, j);
    }
  }

  lemma IndexOf<T(!new)>(s: seq<T>, x: T) returns (j: nat)
    requires x in s
    ensures j < |s| && s[j] == x
  {
    j :| 0 <= j < |s| && s[j] == x;
  }

  lemma KeysOfTail<T(!new), U(!new)>(f: T -> U, s: seq<T>)
    requires s != []
    ensures multiset(Keys(f, s)) == multiset(Keys(f, s[1..])) + multiset{f(s[0])}
  {
    assert Keys(f, s) == [f(s[0])] + Keys(f, s[1..]);
  }

  lemma KeysWithout<T(!new), U(!new)>(f: T -> U, s: seq<T>, j: nat)
    requires j < |s|
    ensures multiset(Keys(f, s)) == multiset(Keys(f, s[..j] + s[j + 1..])) + multiset{f(s[j])}
  {
    var t := Keys(f, s);
    assert t == t[..j] + [t[j]] + t[j + 1..];
    assert Keys(f, s[..j] + s[j + 1..]) == t[..j] + t[j + 1..];
  }

  lemma Twice<T(!new)>(s: seq<T>, i: nat, j: nat)
    requires i < j < |s| && s[i] == s[j]
    ensures multiset(s)[s[i]] >= 2
  {
    assert s == s[..i] + [s[i]] + s[i + 1..j] + [s[j]] + s[j + 1..];
  }

  lemma DistinctFollows<T(!new)>(a: seq<T>, b: seq<T>)
    requires Distinct(a) && multiset(a) == multiset(b)
    ensures Distinct(b)
  {
    EachOnce(a);
    forall i, j | 0 <= i < j < |b| ensures b[i] != b[j] {
      if b[i] == b[j] {
        Twice(b, i, j);
      }
    }
  }

  /** Two arrangements split by the same test have the same elements before the split. */
  lemma SameFront<T(!new)>(test: T -> bool, a: seq<T>, b: seq<T>, q: nat)
    requires multiset(a) == multiset(b) && q <= |a| && q <= |b|
    requires (forall x :: x in a[..q] || x in b[..q] ==> test(x)) &&
             (forall x :: x in a[q..] || x in b[q..] ==> !test(x))
    ensures multiset(a[..q]) == multiset(b[..q])
  {
    assert a == a[..q] + a[q..] && b == b[..q] + b[q..];
    forall x ensures multiset(a[..q])[x] == multiset(b[..q])[x] {
      assert multiset(a)[x] == multiset(a[..q])[x] + multiset(a[q..])[x];
      assert multiset(b)[x] == multiset(b[..q])[x] + multiset(b[q..])[x];
      assert x in a[..q] <==> x in multiset(a[..q]);
      assert x in b[..q] <==> x in multiset(b[..q]);
      assert x in a[q..] <==> x in multiset(a[q..]);
      assert x in b[q..] <==> x in multiset(b[q..]);
    }
  }
}
