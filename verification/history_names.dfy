/** The history entry names `<unix>[-n]` of `server/src/blobs.rs`, and the order they list in. */
module HistoryNames {
  import opened Types
  import opened Sorting

  const U64: nat := 0x1_0000_0000_0000_0000
  const MAX_NAME_BYTES: nat := 32

  // ---- Decimal numerals -------------------------------------------------------------------

  function Digit(d: nat): char
    requires d < 10
  {
    '0' + d as char
  }

  predicate IsDigit(c: char) {
    '0' <= c <= '9'
  }

  predicate AllDigits(s: string) {
    forall k :: 0 <= k < |s| ==> IsDigit(s[k])
  }

  function Decimal(n: nat): string {
    if n < 10 then [Digit(n)] else Decimal(n / 10) + [Digit(n % 10)]
  }

  function Value(s: string): nat
    requires AllDigits(s)
  {
    if s == "" then 0 else 10 * Value(s[..|s| - 1]) + (s[|s| - 1] as nat - '0' as nat)
  }

  lemma {:induction false} DecimalReadsBack(n: nat)
    ensures AllDigits(Decimal(n)) && Decimal(n) != "" && Value(Decimal(n)) == n
  {
    if n >= 10 {
      DecimalReadsBack(n / 10);
      assert Decimal(n)[..|Decimal(n)| - 1] == Decimal(n / 10);
    } else {
      assert Decimal(n)[..0] == "";
    }
  }

  function Power10(k: nat): nat {
    if k == 0 then 1 else 10 * Power10(k - 1)
  }

  lemma {:induction false} DecimalLength(n: nat, k: nat)
    requires n < Power10(k) && k > 0
    ensures |Decimal(n)| <= k
  {
    if n >= 10 {
      DecimalLength(n / 10, k - 1);
    }
  }

  // ---- Names ------------------------------------------------------------------------------

  /** The name tried at the `nth`-th attempt. */
  function Name(now: nat, nth: nat): string {
    if nth == 0 then Decimal(now) else Decimal(now) + "-" + Decimal(nth)
  }

  function LeadingDigits(s: string): string {
    if s != "" && IsDigit(s[0]) then [s[0]] + LeadingDigits(s[1..]) else ""
  }

  /** What follows the first `-`, if there is one. */
  function AfterDash(s: string): Option<string> {
    if s == "" then None else if s[0] == '-' then Some(s[1..]) else AfterDash(s[1..])
  }

  function ParseU64(s: string): Option<nat> {
    var digits := if |s| > 1 && s[0] == '+' then s[1..] else s;
    if digits != "" && AllDigits(digits) && Value(digits) < U64 then Some(Value(digits)) else None
  }

  function OrZero(n: Option<nat>): nat {
    if n.Some? then n.value else 0
  }

  function ExtractTimestamp(name: string): nat {
    OrZero(ParseU64(LeadingDigits(name)))
  }

  function HistoryOrder(name: string): Order {
    var rest := AfterDash(name);
    Order(ExtractTimestamp(name), if rest.Some? then OrZero(ParseU64(rest.value)) else 0)
  }

  predicate ValidHistoryName(name: string) {
    && name != "" && |name| <= MAX_NAME_BYTES
    && (forall k :: 0 <= k < |name| ==> IsDigit(name[k]) || name[k] == '-')
    && name[0] != '-'
  }

  lemma {:induction false} DigitsThenDash(digits: string, tail: string)
    requires AllDigits(digits) && (tail == "" || tail[0] == '-')
    ensures LeadingDigits(digits + tail) == digits
    ensures AfterDash(digits + tail) == if tail == "" then None else Some(tail[1..])
  {
    if digits == "" {
      assert digits + tail == tail;
    } else {
      DigitsThenDash(digits[1..], tail);
      assert (digits + tail)[1..] == digits[1..] + tail;
      assert digits == [digits[0]] + digits[1..];
    }
  }

  lemma NumeralParses(n: nat)
    ensures ParseU64(Decimal(n)) == if n < U64 then Some(n) else None
  {
    DecimalReadsBack(n);
    assert Decimal(n)[0] != '+';
  }

  lemma StemReads(now: nat, tail: string)
    requires now < U64 && (tail == "" || tail[0] == '-')
    ensures ExtractTimestamp(Decimal(now) + tail) == now
    ensures AfterDash(Decimal(now) + tail) == if tail == "" then None else Some(tail[1..])
  {
    DecimalReadsBack(now);
    NumeralParses(now);
    DigitsThenDash(Decimal(now), tail);
  }

  lemma SuffixedName(now: nat, nth: nat)
    requires nth > 0
    ensures Name(now, nth) == Decimal(now) + ("-" + Decimal(nth)) && ("-" + Decimal(nth))[1..] == Decimal(nth)
  {
  }

  lemma PlainNameReadsBack(now: nat)
    requires now < U64
    ensures HistoryOrder(Name(now, 0)) == Order(now, 0)
  {
    StemReads(now, "");
    assert Decimal(now) + "" == Decimal(now);
  }

  /** A name that was written sorts by the second and the attempt it was written at. */
  lemma NameReadsBack(now: nat, nth: nat)
    requires now < U64 && nth < U64
    ensures HistoryOrder(Name(now, nth)) == Order(now, nth)
  {
    if nth == 0 {
      PlainNameReadsBack(now);
    } else {
      SuffixedName(now, nth);
      StemReads(now, "-" + Decimal(nth));
      NumeralParses(nth);
    }
  }

  /** Attempts within one second never collide, whatever their number. */
  lemma NamesApart(now: nat, a: nat, b: nat)
    requires Name(now, a) == Name(now, b)
    ensures a == b
  {
    DecimalReadsBack(a);
    DecimalReadsBack(b);
    var stem := |Decimal(now)| + 1;
    if a > 0 && b > 0 {
      assert Name(now, a)[stem..] == Decimal(a);
      assert Name(now, b)[stem..] == Decimal(b);
    } else {
      assert a > 0 ==> |Name(now, a)| > stem;
      assert b > 0 ==> |Name(now, b)| > stem;
    }
  }

  lemma TwentyDigits()
    ensures U64 < Power10(20) && Power10(10) == 10_000_000_000
  {
    assert Power10(5) == 100_000;
    assert Power10(10) == 10_000_000_000;
    assert Power10(15) == 1_000_000_000_000_000;
    assert Power10(20) == 100_000_000_000_000_000_000;
  }

  /** Every name a 64-bit second and a 32-bit attempt counter can produce may be asked for again. */
  lemma WrittenNamesAreValid(now: nat, nth: nat)
    requires now < U64 && nth < 0x8000_0000
    ensures ValidHistoryName(Name(now, nth))
  {
    TwentyDigits();
    DecimalLength(now, 20);
    DecimalLength(nth, 10);
    DecimalReadsBack(now);
    DecimalReadsBack(nth);
    assert IsDigit(Decimal(now)[0]);
  }

  // ---- Listing ----------------------------------------------------------------------------

  /** `list_history`: the entries as the directory yields them, newest first. */
  function ListHistory(entries: seq<string>): seq<string> {
    SortNewestFirst(HistoryOrder, entries)
  }

  // ---- Reverse chronological --------------------------------------------------------------

  /** One entry written: the second, and the first attempt that was free then. */
  datatype Written = Written(now: nat, nth: nat)

  function NameOf(w: Written): string {
    Name(w.now, w.nth)
  }

  ghost predicate FirstFree(used: seq<Written>, w: Written) {
    && w !in used
    && forall k: nat :: k < w.nth ==> Written(w.now, k) in used
  }

  /** A directory's entries in the order they were written, none removed and the clock never back. */
  ghost predicate IsLog(log: seq<Written>) {
    && (forall i :: 0 <= i < |log| ==> log[i].now < U64 && log[i].nth < U64 && FirstFree(log[..i], log[i]))
    && (forall i, j :: 0 <= i < j < |log| ==> log[i].now <= log[j].now)
  }

  lemma LaterSortsHigher(log: seq<Written>, i: nat, j: nat)
    requires IsLog(log) && i < j < |log|
    ensures Before(HistoryOrder(NameOf(log[i])), HistoryOrder(NameOf(log[j])))
  {
    var a, b := log[i], log[j];
    NameReadsBack(a.now, a.nth);
    NameReadsBack(b.now, b.nth);
    assert log[..j][i] == a;
    if a.now == b.now {
      SameSecond(log, i, j);
    }
  }

  /** The later of two attempts in one second saw the earlier one's name, and all below it, taken. */
  lemma SameSecond(log: seq<Written>, i: nat, j: nat)
    requires IsLog(log) && i < j < |log| && log[i].now == log[j].now
    ensures log[i].nth < log[j].nth
  {
    var a, b := log[i], log[j];
    assert FirstFree(log[..i], a) && FirstFree(log[..j], b);
    assert log[..j][i] == a;
    assert forall x :: x in log[..i] ==> x in log[..j];
    assert b == Written(a.now, b.nth);
  }

  function Reversed<T>(s: seq<T>): (r: seq<T>)
    ensures |r| == |s| && forall k :: 0 <= k < |s| ==> r[k] == s[|s| - 1 - k]
  {
    seq(|s|, k requires 0 <= k < |s| => s[|s| - 1 - k])
  }

  function NamesOf(log: seq<Written>): (r: seq<string>)
    ensures |r| == |log| && forall k :: 0 <= k < |log| ==> r[k] == NameOf(log[k])
  {
    seq(|log|, k requires 0 <= k < |log| => NameOf(log[k]))
  }

  lemma {:induction false} ReversedKeepsAll<T(!new)>(s: seq<T>)
    ensures multiset(Reversed(s)) == multiset(s)
  {
    if s != [] {
      ReversedKeepsAll(s[1..]);
      assert Reversed(s) == Reversed(s[1..]) + [s[0]];
      assert s == [s[0]] + s[1..];
    }
  }

  lemma ReversedDescends(key: string -> Order, names: seq<string>)
    requires forall i, j :: 0 <= i < j < |names| ==> Before(key(names[i]), key(names[j]))
    ensures StrictlyNewestFirst(key, Reversed(names))
  {
  }

  lemma LogSortsStrictly(log: seq<Written>)
    requires IsLog(log)
    ensures StrictlyNewestFirst(HistoryOrder, Reversed(NamesOf(log)))
  {
    var key, names := HistoryOrder, NamesOf(log);
    forall i, j | 0 <= i < j < |names| ensures Before(key(names[i]), key(names[j])) {
      LaterSortsHigher(log, i, j);
    }
    ReversedDescends(key, names);
  }

  lemma LogNamesDistinct(log: seq<Written>)
    requires IsLog(log)
    ensures Sorting.Distinct(NamesOf(log))
  {
    var names := NamesOf(log);
    forall i, j | 0 <= i < j < |names| ensures names[i] != names[j] {
      LaterSortsHigher(log, i, j);
    }
  }

  /** In whatever order the directory yields them, entries list newest first, even within one second. */
  lemma ListsReverseChronologically(log: seq<Written>, entries: seq<string>)
    requires IsLog(log) && multiset(entries) == multiset(NamesOf(log))
    ensures ListHistory(entries) == Reversed(NamesOf(log))
  {
    LogSortsStrictly(log);
    ReversedKeepsAll(NamesOf(log));
    SortSorts(HistoryOrder, entries);
    OneOrder(HistoryOrder, Reversed(NamesOf(log)), ListHistory(entries));
  }

  /**
   * With older entries pruned, the next entry of the same second still lists first exactly when
   * no entry of that second stands above a free name.
   */
  lemma NewEntryListsFirstIff(dir: set<Written>, w: Written)
    requires w.now < U64 && w.nth < U64 && w !in dir && forall k: nat :: k < w.nth ==> Written(w.now, k) in dir
    requires forall e :: e in dir ==> e.now <= w.now && e.nth < U64
    ensures (forall e :: e in dir ==> Before(HistoryOrder(NameOf(e)), HistoryOrder(NameOf(w)))) <==>
              forall e, k: nat :: e in dir && e.now == w.now && k < e.nth ==> Written(w.now, k) in dir
  {
    forall e | e in dir ensures HistoryOrder(NameOf(e)) == Order(e.now, e.nth) {
      NameReadsBack(e.now, e.nth);
    }
    NameReadsBack(w.now, w.nth);
    if forall e :: e in dir ==> Before(HistoryOrder(NameOf(e)), HistoryOrder(NameOf(w))) {
    } else {
      var e :| e in dir && !Before(HistoryOrder(NameOf(e)), HistoryOrder(NameOf(w)));
      assert e.now == w.now && e.nth >= w.nth && e != w;
      assert w == Written(w.now, w.nth);
    }
  }

  /** Once the first entry of a second is pruned, the next one takes its name and lists below the one that stayed. */
  lemma ANewEntryListsLast()
    ensures var kept, next := Written(5, 1), Written(5, 0);
            FirstFree([kept], next) && Before(HistoryOrder(NameOf(next)), HistoryOrder(NameOf(kept)))
  {
    NameReadsBack(5, 0);
    NameReadsBack(5, 1);
  }
}
