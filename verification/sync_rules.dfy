/** `core/src/sync_rules.rs`: upload batching, conflict choices, the `KeepBoth` copy name. */
module SyncRules {
  import opened Types

  // ---- Batching ---------------------------------------------------------------------------

  const BATCH_BYTE_BUDGET: nat := 32 * 1024 * 1024
  const BATCH_MAX_OPS: nat := 64

  datatype Range = Range(start: nat, end: nat)

  function Sum(sizes: seq<nat>, lo: nat, hi: nat): nat
    requires lo <= hi <= |sizes|
  {
    if lo == hi then 0 else Sum(sizes, lo, hi - 1) + sizes[hi - 1]
  }

  lemma {:induction false} SumWithin(sizes: seq<nat>, lo: nat, lo': nat, hi': nat, hi: nat)
    requires lo <= lo' <= hi' <= hi <= |sizes|
    ensures Sum(sizes, lo', hi') <= Sum(sizes, lo, hi)
    decreases hi - lo
  {
    if hi' < hi {
      SumWithin(sizes, lo, lo', hi', hi - 1);
    } else if lo' < hi' {
      SumWithin(sizes, lo, lo', hi' - 1, hi - 1);
    }
  }

  /** A non-empty batch within the limits; a single file may be of any size. */
  predicate Fits(sizes: seq<nat>, r: Range) {
    && r.start < r.end <= |sizes|
    && (r.end - r.start == 1 || (r.end - r.start <= BATCH_MAX_OPS && Sum(sizes, r.start, r.end) <= BATCH_BYTE_BUDGET))
  }

  /** Consecutive batches within the limits that cover `[0, upTo)` once. */
  ghost predicate Splits(sizes: seq<nat>, batches: seq<Range>, upTo: nat) {
    && (forall k :: 0 <= k < |batches| ==> Fits(sizes, batches[k]))
    && (forall j, k :: 0 <= j < k < |batches| && k == j + 1 ==> batches[j].end == batches[k].start)
    && (if batches == [] then upTo == 0 else batches[0].start == 0 && batches[|batches| - 1].end == upTo)
  }

  /** No batch but the last could have taken one more file. */
  ghost predicate Saturated(sizes: seq<nat>, batches: seq<Range>, n: nat)
    requires n <= |batches|
  {
    forall k :: 0 <= k < n ==> !Fits(sizes, Range(batches[k].start, batches[k].end + 1))
  }

  lemma AddBatch(sizes: seq<nat>, batches: seq<Range>, start: nat, end: nat)
    requires Splits(sizes, batches, start) && Saturated(sizes, batches, |batches|)
    requires Fits(sizes, Range(start, end))
    ensures Splits(sizes, batches + [Range(start, end)], end)
    ensures Saturated(sizes, batches + [Range(start, end)], |batches|)
    ensures !Fits(sizes, Range(start, end + 1)) ==> Saturated(sizes, batches + [Range(start, end)], |batches| + 1)
  {
  }

  const HALF_U64: nat := 0x8000_0000_0000_0000

  ghost predicate AllBelow(sizes: seq<nat>, bound: nat) {
    forall k :: 0 <= k < |sizes| ==> sizes[k] < bound
  }

  /** Every sum the loop forms for a batch, the one that closes it included. */
  ghost predicate SumsFit(sizes: seq<nat>, r: Range)
    requires Fits(sizes, r)
  {
    forall i :: r.start <= i <= r.end && i < |sizes| ==> Sum(sizes, r.start, i) + sizes[i] < 2 * HALF_U64
  }

  lemma BatchSumsFit(sizes: seq<nat>, r: Range)
    requires Fits(sizes, r) && AllBelow(sizes, HALF_U64)
    ensures SumsFit(sizes, r)
  {
    forall i | r.start <= i <= r.end && i < |sizes| ensures Sum(sizes, r.start, i) < HALF_U64 {
      SumWithin(sizes, r.start, r.start, i, r.end);
      if r.end - r.start == 1 {
        assert Sum(sizes, r.start, r.end) == sizes[r.start];
      }
    }
  }

  /**
   * The greedy split. It covers every index once within the limits, no split within the limits
   * has fewer batches, and the 64-bit byte count cannot overflow while every size is below 2^63:
   * what a batch holds up to any file, plus that file or the one it closes before, fits 64 bits.
   */
  method ChunkUploads(sizes: seq<nat>) returns (batches: seq<Range>)
    ensures Splits(sizes, batches, |sizes|)
    ensures forall other :: Splits(sizes, other, |sizes|) ==> |batches| <= |other|
    ensures AllBelow(sizes, HALF_U64) ==> forall k :: 0 <= k < |batches| ==> SumsFit(sizes, batches[k])
  {
    batches := [];
    var start, bytes := 0, 0;
    for index := 0 to |sizes|
      invariant start <= index && (start == index ==> index == 0)
      invariant bytes == Sum(sizes, start, index)
      invariant Splits(sizes, batches, start) && Saturated(sizes, batches, |batches|)
      invariant start < index ==> Fits(sizes, Range(start, index))
    {
      var full := index > start && (bytes + sizes[index] > BATCH_BYTE_BUDGET || index - start >= BATCH_MAX_OPS);
      if full {
        AddBatch(sizes, batches, start, index);
        batches := batches + [Range(start, index)];
        start, bytes := index, 0;
      }
      bytes := bytes + sizes[index];
    }
    if start < |sizes| {
      AddBatch(sizes, batches, start, |sizes|);
      batches := batches + [Range(start, |sizes|)];
    }
    if AllBelow(sizes, HALF_U64) {
      forall k | 0 <= k < |batches| ensures SumsFit(sizes, batches[k]) {
        BatchSumsFit(sizes, batches[k]);
      }
    }
    forall other | Splits(sizes, other, |sizes|) ensures |batches| <= |other| {
      GreedyIsShortest(sizes, batches, other);
    }
  }

  lemma GreedyIsShortest(sizes: seq<nat>, greedy: seq<Range>, other: seq<Range>)
    requires Splits(sizes, greedy, |sizes|) && Splits(sizes, other, |sizes|)
    requires |greedy| > 0 ==> Saturated(sizes, greedy, |greedy| - 1)
    ensures |greedy| <= |other|
  {
    forall k | 0 <= k < |greedy| - 1 ensures greedy[k].end < |sizes| {
      assert Fits(sizes, greedy[k + 1]);
    }
    if 0 < |other| <= |greedy| {
      GreedyStaysAhead(sizes, greedy, other, |other| - 1);
    }
  }

  /** The greedy split's `k`-th batch ends no earlier than the `k`-th batch of any other split. */
  lemma {:induction false} GreedyStaysAhead(sizes: seq<nat>, greedy: seq<Range>, other: seq<Range>, k: nat)
    requires Splits(sizes, greedy, |sizes|) && Splits(sizes, other, |sizes|)
    requires |greedy| > 0 ==> Saturated(sizes, greedy, |greedy| - 1)
    requires k < |greedy| && k < |other|
    ensures other[k].end <= greedy[k].end
  {
    if k > 0 {
      GreedyStaysAhead(sizes, greedy, other, k - 1);
    }
    assert other[k].start <= greedy[k].start;
    assert Fits(sizes, other[k]) && Fits(sizes, greedy[k]);
    FitsWithin(sizes, greedy[k], other[k]);
  }

  /** A batch that starts no later and ends later leaves room for one more file. */
  lemma FitsWithin(sizes: seq<nat>, g: Range, o: Range)
    requires Fits(sizes, g) && Fits(sizes, o) && o.start <= g.start
    ensures g.end < o.end ==> Fits(sizes, Range(g.start, g.end + 1))
  {
    if g.end < o.end {
      SumWithin(sizes, o.start, g.start, g.end + 1, o.end);
    }
  }

  // ---- Conflict choices -------------------------------------------------------------------

  /** The choice as it is carried out: `KeepBoth` falls back to the live side where the other is a deletion. */
  function EffectiveChoice(choice: Choice, conflict: Conflict): Choice {
    if choice == KeepBoth && conflict.remote.deleted then KeepLocal
    else if choice == KeepBoth && conflict.local.deleted then KeepRemote
    else choice
  }

  /** What is carried out for a conflict; one that nobody answered is deferred. */
  function ChoiceFor(choices: map<Path, Choice>, c: Conflict): Choice {
    EffectiveChoice(if c.path in choices then choices[c.path] else Defer, c)
  }

  function ConflictToUpload(conflict: Conflict): SyncAction {
    SyncAction(conflict.path, if conflict.local.deleted then DeleteRemote else Upload,
               Some(conflict.local), Some(conflict.remote))
  }

  /** The hash the server checks the write against; an empty one is not sent. */
  function ParentHash(action: SyncAction): Option<Hash> {
    if action.remote.Some? && action.remote.value.hash != "" then Some(action.remote.value.hash) else None
  }

  // ---- The copy name ----------------------------------------------------------------------

  /** `i` is one past the last `c` in `s`, or 0 when there is none. */
  predicate EndsAt(s: string, c: char, i: nat) {
    && i <= |s|
    && (i > 0 ==> s[i - 1] == c)
    && forall k :: i <= k < |s| ==> s[k] != c
  }

  function AfterLast(s: string, c: char): (i: nat)
    ensures EndsAt(s, c, i)
  {
    if s == "" then 0 else if s[|s| - 1] == c then |s| else AfterLast(s[..|s| - 1], c)
  }

  lemma EndsAtUnique(s: string, c: char, i: nat, j: nat)
    requires EndsAt(s, c, i) && EndsAt(s, c, j)
    ensures i == j
  {
  }

  const MARK := ".conflict"

  /** `name` with the marker before its extension, which starts at the dot before `dot`. */
  function Marked(name: string, dot: nat): string
    requires dot <= |name|
  {
    if dot <= 1 then name + MARK else name[..dot - 1] + MARK + name[dot - 1..]
  }

  /** A file name's extension starts at its last dot, unless that dot is the first character. */
  function CopyName(name: string): string {
    Marked(name, AfterLast(name, '.'))
  }

  function ConflictCopyPath(path: Path): Path {
    var slash := AfterLast(path, '/');
    path[..slash] + CopyName(path[slash..])
  }

  lemma MarkedDot(name: string, dot: nat)
    requires EndsAt(name, '.', dot)
    ensures EndsAt(Marked(name, dot), '.', if dot <= 1 then |name| + 1 else dot + 9)
  {
    var m := Marked(name, dot);
    if dot <= 1 {
      assert forall k :: |name| <= k < |m| ==> m[k] == MARK[k - |name|];
    } else {
      assert forall k :: dot + 8 <= k < |m| ==> m[k] == name[k - 9];
    }
  }

  lemma MarkedMixed(a: string, i: nat, b: string, j: nat)
    requires EndsAt(a, '.', i) && EndsAt(b, '.', j) && i > 1 >= j
    ensures Marked(a, i) != Marked(b, j)
  {
    MarkedDot(a, i);
    MarkedDot(b, j);
    assert Marked(a, i)[i - 1] == '.';
    assert i + 9 == |b| + 1 ==> Marked(b, j)[i - 1] == b[i - 1];
  }

  lemma MarkedInjective(a: string, i: nat, b: string, j: nat)
    requires EndsAt(a, '.', i) && EndsAt(b, '.', j) && Marked(a, i) == Marked(b, j)
    ensures a == b
  {
    var m := Marked(a, i);
    if i <= 1 && j <= 1 {
      assert a == m[..|a|] && b == m[..|b|];
    } else if i > 1 && j > 1 {
      MarkedDot(a, i);
      MarkedDot(b, j);
      EndsAtUnique(m, '.', i + 9, j + 9);
      assert a == m[..i - 1] + m[i + 8..] && b == m[..i - 1] + m[i + 8..];
    } else if i > 1 {
      MarkedMixed(a, i, b, j);
    } else {
      MarkedMixed(b, j, a, i);
    }
  }

  lemma CopySlash(p: Path)
    ensures EndsAt(ConflictCopyPath(p), '/', AfterLast(p, '/'))
    ensures |ConflictCopyPath(p)| == |p| + 9
  {
    var slash := AfterLast(p, '/');
    var name := p[slash..];
    assert forall k :: 0 <= k < |name| ==> name[k] == p[slash + k];
    MarkedSlash(name, AfterLast(name, '.'));
    PrefixedSlash(p, slash, CopyName(name));
  }

  lemma PrefixedSlash(p: Path, slash: nat, name: string)
    requires EndsAt(p, '/', slash) && EndsAt(name, '/', 0)
    ensures EndsAt(p[..slash] + name, '/', slash)
  {
    var copy := p[..slash] + name;
    assert forall k :: slash <= k < |copy| ==> copy[k] == name[k - slash];
  }

  lemma MarkedSlash(name: string, dot: nat)
    requires EndsAt(name, '/', 0) && dot <= |name|
    ensures EndsAt(Marked(name, dot), '/', 0) && |Marked(name, dot)| == |name| + 9
  {
    var m := Marked(name, dot);
    assert forall k :: 0 <= k < |MARK| ==> MARK[k] != '/';
    if dot <= 1 {
      assert forall k :: 0 <= k < |m| ==> m[k] == if k < |name| then name[k] else MARK[k - |name|];
    } else {
      assert forall k :: 0 <= k < |m| ==>
        m[k] == if k < dot - 1 then name[k] else if k < dot + 8 then MARK[k - dot + 1] else name[k - 9];
    }
  }

  /** Two conflicts never share a copy path, and a copy never lands on the file it is a copy of. */
  lemma CopyPathInjective(p: Path, q: Path)
    ensures ConflictCopyPath(p) != p
    ensures ConflictCopyPath(p) == ConflictCopyPath(q) ==> p == q
  {
    CopySlash(p);
    CopySlash(q);
    if ConflictCopyPath(p) == ConflictCopyPath(q) {
      var i, j, copy := AfterLast(p, '/'), AfterLast(q, '/'), ConflictCopyPath(p);
      EndsAtUnique(copy, '/', i, j);
      assert CopyName(p[i..]) == copy[i..] == CopyName(q[i..]);
      MarkedInjective(p[i..], AfterLast(p[i..], '.'), q[i..], AfterLast(q[i..], '.'));
      assert p == copy[..i] + p[i..] && q == copy[..i] + q[i..];
    }
  }
}
