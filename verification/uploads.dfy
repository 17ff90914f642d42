/** `run_uploads` of `core/src/sync_engine.rs`: batches, answers, and what happens to every upload. */
module Uploads {
  import opened Types
  import opened SyncRules

  /** The server's answer to one operation of a batch. */
  datatype OpResult = OpResult(status: nat, current: Option<FileEntry>)

  /** A whole batch request: it failed, or it was answered with a list of results. */
  datatype BatchReply = RequestFailed(fatal: bool) | Answered(results: seq<OpResult>)

  /** Errors that every further request would meet as well. */
  predicate IsFatalStatus(status: nat) {
    status == 401 || status == 403 || 500 <= status <= 599
  }

  /** The client turns an answer of the wrong length into an error of status 502. */
  function Checked(reply: BatchReply, ops: nat): BatchReply {
    if reply.Answered? && |reply.results| != ops then RequestFailed(IsFatalStatus(502)) else reply
  }

  /** What became of one upload. */
  datatype Fate = Untouched | Succeeded | Failed(fatal: bool) | Late(current: FileEntry)

  const MISSING_ROW := FileEntry("", 0, 0, true, "")
  const NO_ENTRY := FileEntry("", 0, 0, false, "")

  function FateOfResult(r: OpResult): Fate {
    if 200 <= r.status <= 299 then Succeeded
    else if r.status == 409 then Late(if r.current.Some? then r.current.value else MISSING_ROW)
    else Failed(IsFatalStatus(r.status))
  }

  // ---- Accounts ---------------------------------------------------------------------------

  function LateConflict(action: SyncAction, current: FileEntry): Conflict {
    Conflict(action.path, if action.local.Some? then action.local.value else NO_ENTRY, current)
  }

  function FailureOf(action: SyncAction, fatal: bool): SyncFailure {
    SyncFailure(action.path, action.kind, fatal)
  }

  /** The upload phase so far: the fields of `UploadOutcome`, the hold-back set, and each upload's fate. */
  datatype Progress =
    Progress(succeeded: nat, failures: seq<SyncFailure>, late: seq<Conflict>, held: set<Path>, fates: seq<Fate>)

  datatype Counts = Counts(succeeded: nat, failed: nat, late: nat)

  function Counted(c: Counts, fate: Fate): Counts {
    match fate
    case Untouched => c
    case Succeeded => c.(succeeded := c.succeeded + 1)
    case Failed(_) => c.(failed := c.failed + 1)
    case Late(_) => c.(late := c.late + 1)
  }

  function CountFates(fates: seq<Fate>, n: nat): Counts
    requires n <= |fates|
  {
    if n == 0 then Counts(0, 0, 0) else Counted(CountFates(fates, n - 1), fates[n - 1])
  }

  lemma {:induction false} CountUpdate(fates: seq<Fate>, i: nat, fate: Fate, n: nat)
    requires n <= |fates| && i < |fates| && fates[i] == Untouched
    ensures CountFates(fates[i := fate], n) ==
              if i < n then Counted(CountFates(fates, n), fate) else CountFates(fates, n)
  {
    if n > 0 {
      CountUpdate(fates, i, fate, n - 1);
    }
  }

  /** One counter, failure or conflict per touched upload, and nothing else. */
  ghost predicate Tallies(uploads: seq<SyncAction>, g: Progress) {
    && |g.fates| == |uploads|
    && CountFates(g.fates, |g.fates|) == Counts(g.succeeded, |g.failures|, |g.late|)
    && (forall i :: 0 <= i < |uploads| && g.fates[i].Failed? ==> FailureOf(uploads[i], g.fates[i].fatal) in g.failures)
    && (forall i :: 0 <= i < |uploads| && g.fates[i].Late? ==> LateConflict(uploads[i], g.fates[i].current) in g.late)
    && (forall f :: f in g.failures ==> IsFailureOfSome(uploads, g.fates, f))
    && (forall c :: c in g.late ==> IsLateOfSome(uploads, g.fates, c))
  }

  ghost predicate IsFailureOfSome(uploads: seq<SyncAction>, fates: seq<Fate>, f: SyncFailure)
    requires |fates| == |uploads|
  {
    exists i :: 0 <= i < |uploads| && fates[i].Failed? && f == FailureOf(uploads[i], fates[i].fatal)
  }

  ghost predicate IsLateOfSome(uploads: seq<SyncAction>, fates: seq<Fate>, c: Conflict)
    requires |fates| == |uploads|
  {
    exists i :: 0 <= i < |uploads| && fates[i].Late? && c == LateConflict(uploads[i], fates[i].current)
  }

  /** The hold-back set has grown by exactly the paths that failed or met a late conflict. */
  ghost predicate HoldsBack(uploads: seq<SyncAction>, held0: set<Path>, g: Progress) {
    && |g.fates| == |uploads|
    && held0 <= g.held
    && (forall f :: f in g.failures ==> f.path in g.held) && (forall c :: c in g.late ==> c.path in g.held)
    && (forall i :: 0 <= i < |uploads| && (g.fates[i].Failed? || g.fates[i].Late?) ==> uploads[i].path in g.held)
    && (forall p :: p in g.held && p !in held0 ==>
          exists i :: 0 <= i < |uploads| && (g.fates[i].Failed? || g.fates[i].Late?) && uploads[i].path == p)
  }

  ghost predicate Accounts(uploads: seq<SyncAction>, held0: set<Path>, g: Progress) {
    Tallies(uploads, g) && HoldsBack(uploads, held0, g)
  }

  function Mark(uploads: seq<SyncAction>, g: Progress, i: nat, fate: Fate): Progress
    requires i < |uploads| == |g.fates|
  {
    var a, g' := uploads[i], g.(fates := g.fates[i := fate]);
    match fate
    case Untouched => g'
    case Succeeded => g'.(succeeded := g.succeeded + 1)
    case Failed(fatal) => g'.(failures := g.failures + [FailureOf(a, fatal)], held := g.held + {a.path})
    case Late(current) => g'.(late := g.late + [LateConflict(a, current)], held := g.held + {a.path})
  }

  lemma MarkTallies(uploads: seq<SyncAction>, g: Progress, i: nat, fate: Fate)
    requires i < |uploads| && Tallies(uploads, g) && g.fates[i] == Untouched
    ensures Tallies(uploads, Mark(uploads, g, i, fate))
  {
    CountUpdate(g.fates, i, fate, |g.fates|);
    var g' := Mark(uploads, g, i, fate);
    assert forall f :: f in g.failures ==> f in g'.failures;
    assert forall c :: c in g.late ==> c in g'.late;
    MarkExplains(uploads, g, i, fate);
  }

  lemma MarkExplains(uploads: seq<SyncAction>, g: Progress, i: nat, fate: Fate)
    requires i < |uploads| && Tallies(uploads, g) && g.fates[i] == Untouched
    ensures var g' := Mark(uploads, g, i, fate);
            && (forall f :: f in g'.failures ==> IsFailureOfSome(uploads, g'.fates, f))
            && (forall c :: c in g'.late ==> IsLateOfSome(uploads, g'.fates, c))
  {
    var g' := Mark(uploads, g, i, fate);
    assert g'.fates[i] == fate;
    forall f | f in g.failures ensures IsFailureOfSome(uploads, g'.fates, f) {
      var k :| 0 <= k < |uploads| && g.fates[k].Failed? && f == FailureOf(uploads[k], g.fates[k].fatal);
      assert g'.fates[k] == g.fates[k];
    }
    forall c | c in g.late ensures IsLateOfSome(uploads, g'.fates, c) {
      var k :| 0 <= k < |uploads| && g.fates[k].Late? && c == LateConflict(uploads[k], g.fates[k].current);
      assert g'.fates[k] == g.fates[k];
    }
  }

  lemma MarkHoldsBack(uploads: seq<SyncAction>, held0: set<Path>, g: Progress, i: nat, fate: Fate)
    requires i < |uploads| && HoldsBack(uploads, held0, g) && g.fates[i] == Untouched
    ensures HoldsBack(uploads, held0, Mark(uploads, g, i, fate))
  {
    var g' := Mark(uploads, g, i, fate);
    forall p | p in g'.held && p !in held0
      ensures exists k :: 0 <= k < |uploads| && (g'.fates[k].Failed? || g'.fates[k].Late?) && uploads[k].path == p
    {
      if p in g.held {
        var k :| 0 <= k < |uploads| && (g.fates[k].Failed? || g.fates[k].Late?) && uploads[k].path == p;
        assert g'.fates[k] == g.fates[k];
      } else {
        assert g'.fates[i] == fate && uploads[i].path == p;
      }
    }
  }

  lemma MarkAccounts(uploads: seq<SyncAction>, held0: set<Path>, g: Progress, i: nat, fate: Fate)
    requires i < |uploads| && Accounts(uploads, held0, g) && g.fates[i] == Untouched
    ensures Accounts(uploads, held0, Mark(uploads, g, i, fate))
    ensures Mark(uploads, g, i, fate).fates == g.fates[i := fate]
  {
    MarkTallies(uploads, g, i, fate);
    MarkHoldsBack(uploads, held0, g, i, fate);
  }

  // ---- What should happen -----------------------------------------------------------------

  /** Preparing one operation: nothing to send for other kinds, and a file may be unreadable. */
  datatype Prep = Sendable | NothingToSend | Unreadable

  function PrepOf(uploads: seq<SyncAction>, readable: nat -> bool, i: nat): Prep
    requires i < |uploads|
  {
    match uploads[i].kind
    case Upload => if readable(i) then Sendable else Unreadable
    case DeleteRemote => Sendable
    case _ => NothingToSend
  }

  /** The indices of `[lo, hi)` that travel in the request, in order. */
  function Members(uploads: seq<SyncAction>, readable: nat -> bool, lo: nat, hi: nat): (ms: seq<nat>)
    requires lo <= hi <= |uploads|
    ensures |ms| <= hi - lo && forall k :: 0 <= k < |ms| ==> lo <= ms[k] < hi
  {
    if lo == hi then []
    else Members(uploads, readable, lo, hi - 1) + if PrepOf(uploads, readable, hi - 1).Sendable? then [hi - 1] else []
  }

  /** The reply a batch gets, as the client reports it. */
  function ReplyFor(uploads: seq<SyncAction>, readable: nat -> bool, answer: nat -> BatchReply, r: Range): BatchReply
    requires r.start <= r.end <= |uploads|
  {
    Checked(answer(r.start), |Members(uploads, readable, r.start, r.end)|)
  }

  function FateIn(uploads: seq<SyncAction>, readable: nat -> bool, answer: nat -> BatchReply, r: Range, i: nat): Fate
    requires r.start <= i < r.end <= |uploads|
  {
    match PrepOf(uploads, readable, i)
    case NothingToSend => Succeeded
    case Unreadable => Failed(false)
    case Sendable =>
      match ReplyFor(uploads, readable, answer, r)
      case RequestFailed(fatal) => Failed(fatal)
      case Answered(results) =>
        var rank := |Members(uploads, readable, r.start, i)|;
        if rank < |results| then FateOfResult(results[rank]) else Untouched
  }

  /** A batch ends the phase when its request failed systemically or one of its answers is systemic. */
  predicate Stops(uploads: seq<SyncAction>, readable: nat -> bool, answer: nat -> BatchReply, r: Range)
    requires r.start <= r.end <= |uploads|
  {
    Members(uploads, readable, r.start, r.end) != [] &&
    match ReplyFor(uploads, readable, answer, r)
    case RequestFailed(fatal) => fatal
    case Answered(results) => exists k :: 0 <= k < |results| && FateOfResult(results[k]) == Failed(true)
  }

  // ---- The loops --------------------------------------------------------------------------

  /** The uploads of `[lo, hi)` have the fates preparation gives them, the others are as they were. */
  ghost predicate HasPrepared(uploads: seq<SyncAction>, readable: nat -> bool, lo: nat, hi: nat, before: seq<Fate>,
                              fates: seq<Fate>) {
    && |before| == |fates| == |uploads|
    && forall i :: 0 <= i < |uploads| ==>
         fates[i] == if lo <= i < hi then PreparedFate(uploads, readable, i) else before[i]
  }

  lemma PreparedOneMore(uploads: seq<SyncAction>, readable: nat -> bool, lo: nat, hi: nat, before: seq<Fate>,
                        fates: seq<Fate>)
    requires lo <= hi < |uploads| && HasPrepared(uploads, readable, lo, hi, before, fates) && before[hi] == Untouched
    ensures fates[hi] == Untouched
    ensures HasPrepared(uploads, readable, lo, hi + 1, before, fates[hi := PreparedFate(uploads, readable, hi)])
    ensures PreparedFate(uploads, readable, hi) == Untouched ==> fates[hi := Untouched] == fates
  {
  }

  /** Read and encrypt one batch; what cannot be sent is settled here. */
  method PrepareBatch(uploads: seq<SyncAction>, readable: nat -> bool, r: Range, g0: Progress, ghost held0: set<Path>)
    returns (members: seq<nat>, g: Progress)
    requires r.start <= r.end <= |uploads| && Accounts(uploads, held0, g0)
    requires forall i :: r.start <= i < r.end ==> g0.fates[i] == Untouched
    ensures members == Members(uploads, readable, r.start, r.end)
    ensures Accounts(uploads, held0, g)
    ensures HasPrepared(uploads, readable, r.start, r.end, g0.fates, g.fates)
  {
    members, g := [], g0;
    for index := r.start to r.end
      invariant members == Members(uploads, readable, r.start, index)
      invariant Accounts(uploads, held0, g)
      invariant HasPrepared(uploads, readable, r.start, index, g0.fates, g.fates)
    {
      PreparedOneMore(uploads, readable, r.start, index, g0.fates, g.fates);
      match PrepOf(uploads, readable, index) {
        case Sendable => members := members + [index];
        case NothingToSend =>
          MarkAccounts(uploads, held0, g, index, Succeeded);
          g := Mark(uploads, g, index, Succeeded);
        case Unreadable =>
          MarkAccounts(uploads, held0, g, index, Failed(false));
          g := Mark(uploads, g, index, Failed(false));
      }
    }
  }

  function PreparedFate(uploads: seq<SyncAction>, readable: nat -> bool, i: nat): Fate
    requires i < |uploads|
  {
    match PrepOf(uploads, readable, i)
    case Sendable => Untouched
    case NothingToSend => Succeeded
    case Unreadable => Failed(false)
  }

  /** Members of a batch: distinct uploads that have no fate yet. */
  ghost predicate Pending(members: seq<nat>, n: nat, fates: seq<Fate>) {
    && (forall k :: n <= k < |members| ==> members[k] < |fates| && fates[members[k]] == Untouched)
    && (forall j, k :: 0 <= j < k < |members| ==> members[j] != members[k])
  }

  /** The first `n` members have their fates, and no other upload has changed. */
  ghost predicate Recorded(members: seq<nat>, given: seq<Fate>, n: nat, before: seq<Fate>, fates: seq<Fate>)
    requires n <= |members| == |given|
  {
    && |fates| == |before|
    && (forall k :: 0 <= k < n ==> members[k] < |fates| && fates[members[k]] == given[k])
    && (forall i :: 0 <= i < |fates| && i !in members[..n] ==> fates[i] == before[i])
  }

  lemma RecordedOneMore(members: seq<nat>, given: seq<Fate>, n: nat, before: seq<Fate>, fates: seq<Fate>)
    requires n < |members| == |given| && Pending(members, 0, before) && Recorded(members, given, n, before, fates)
    ensures members[n] < |fates| && fates[members[n]] == Untouched
    ensures Recorded(members, given, n + 1, before, fates[members[n] := given[n]])
  {
    assert members[n] !in members[..n];
    assert members[..n + 1] == members[..n] + [members[n]];
  }

  /** Give the members of a batch their fates, one by one; `stop` tells whether any was systemic. */
  method RecordBatch(uploads: seq<SyncAction>, members: seq<nat>, fates: seq<Fate>, g0: Progress,
                     ghost held0: set<Path>)
    returns (stop: bool, g: Progress)
    requires |fates| == |members| && Accounts(uploads, held0, g0) && Pending(members, 0, g0.fates)
    ensures Accounts(uploads, held0, g)
    ensures stop <==> Failed(true) in fates
    ensures Recorded(members, fates, |members|, g0.fates, g.fates)
  {
    stop, g := false, g0;
    for k := 0 to |members|
      invariant Accounts(uploads, held0, g) && Recorded(members, fates, k, g0.fates, g.fates)
      invariant stop <==> exists j :: 0 <= j < k && fates[j] == Failed(true)
    {
      RecordedOneMore(members, fates, k, g0.fates, g.fates);
      MarkAccounts(uploads, held0, g, members[k], fates[k]);
      g := Mark(uploads, g, members[k], fates[k]);
      stop := stop || fates[k] == Failed(true);
    }
  }

  function SizeOf(action: SyncAction): nat {
    if action.local.Some? then action.local.value.size else 0
  }

  ghost predicate StoppedBefore(uploads: seq<SyncAction>, readable: nat -> bool, answer: nat -> BatchReply,
                                batches: seq<Range>, n: nat)
    requires n <= |batches| && forall k :: 0 <= k < |batches| ==> batches[k].start <= batches[k].end <= |uploads|
  {
    exists k :: 0 <= k < n && Stops(uploads, readable, answer, batches[k])
  }

  /** The fate the environment dictates for every upload of the first `n` batches. */
  ghost predicate AsDictated(uploads: seq<SyncAction>, readable: nat -> bool, answer: nat -> BatchReply,
                             batches: seq<Range>, n: nat, fates: seq<Fate>)
    requires n <= |batches| && |fates| == |uploads|
    requires forall k :: 0 <= k < |batches| ==> batches[k].start <= batches[k].end <= |uploads|
  {
    forall k, i :: 0 <= k < n && batches[k].start <= i < batches[k].end ==>
      fates[i] == if StoppedBefore(uploads, readable, answer, batches, k) then Untouched
                  else FateIn(uploads, readable, answer, batches[k], i)
  }

  lemma {:induction false} MembersAscend(uploads: seq<SyncAction>, readable: nat -> bool, lo: nat, hi: nat, j: nat,
                                         k: nat)
    requires lo <= hi <= |uploads| && j < k < |Members(uploads, readable, lo, hi)|
    ensures Members(uploads, readable, lo, hi)[j] < Members(uploads, readable, lo, hi)[k]
  {
    var front := Members(uploads, readable, lo, hi - 1);
    if k < |front| {
      MembersAscend(uploads, readable, lo, hi - 1, j, k);
    }
  }

  /** A sendable upload sits in its batch's request at the number of sendable uploads before it. */
  lemma {:induction false} MemberRank(uploads: seq<SyncAction>, readable: nat -> bool, lo: nat, hi: nat, i: nat)
    requires lo <= i < hi <= |uploads|
    ensures var ms, rank := Members(uploads, readable, lo, hi), |Members(uploads, readable, lo, i)|;
            && (PrepOf(uploads, readable, i).Sendable? ==> rank < |ms| && ms[rank] == i)
            && (i in ms ==> PrepOf(uploads, readable, i).Sendable?)
  {
    if i < hi - 1 {
      MemberRank(uploads, readable, lo, hi - 1, i);
    }
  }

  function MemberFates(reply: BatchReply, n: nat): (fates: seq<Fate>)
    requires reply.Answered? ==> |reply.results| == n
    ensures |fates| == n
    ensures forall k :: 0 <= k < n ==>
              fates[k] == if reply.Answered? then FateOfResult(reply.results[k]) else Failed(reply.fatal)
  {
    if reply.Answered? then seq(n, k requires 0 <= k < n => FateOfResult(reply.results[k]))
    else seq(n, _ => Failed(reply.fatal))
  }

  lemma StopsIffMemberDoes(uploads: seq<SyncAction>, readable: nat -> bool, answer: nat -> BatchReply, r: Range)
    requires r.start <= r.end <= |uploads|
    ensures var n := |Members(uploads, readable, r.start, r.end)|;
            Stops(uploads, readable, answer, r) <==> Failed(true) in MemberFates(Checked(answer(r.start), n), n)
  {
    var n := |Members(uploads, readable, r.start, r.end)|;
    var fates := MemberFates(Checked(answer(r.start), n), n);
    assert n > 0 ==> fates[0] in fates;
  }

  /** Sent members have the fate of their answer, the others the one preparation gave them. */
  lemma MemberHasItsFate(uploads: seq<SyncAction>, readable: nat -> bool, answer: nat -> BatchReply, r: Range, i: nat,
                         fate: Fate)
    requires r.start <= i < r.end <= |uploads|
    requires var ms := Members(uploads, readable, r.start, r.end);
             var fates := MemberFates(Checked(answer(r.start), |ms|), |ms|);
             && (forall k :: 0 <= k < |ms| && ms[k] == i ==> fate == fates[k])
             && (i !in ms ==> fate == PreparedFate(uploads, readable, i))
    ensures fate == FateIn(uploads, readable, answer, r, i)
    ensures fate != Untouched
  {
    MemberRank(uploads, readable, r.start, r.end, i);
  }

  lemma MembersPending(uploads: seq<SyncAction>, readable: nat -> bool, r: Range, fates: seq<Fate>)
    requires r.start <= r.end <= |uploads| == |fates|
    requires forall i :: r.start <= i < r.end ==> fates[i] == PreparedFate(uploads, readable, i)
    ensures Pending(Members(uploads, readable, r.start, r.end), 0, fates)
  {
    var members := Members(uploads, readable, r.start, r.end);
    forall j, k | 0 <= j < k < |members| ensures members[j] != members[k] {
      MembersAscend(uploads, readable, r.start, r.end, j, k);
    }
    forall k | 0 <= k < |members| ensures fates[members[k]] == Untouched {
      assert members[k] in members;
      MemberRank(uploads, readable, r.start, r.end, members[k]);
    }
  }

  /** Preparing and then recording a batch gives it the fates its answer dictates. */
  lemma PreparedThenRecorded(uploads: seq<SyncAction>, readable: nat -> bool, answer: nat -> BatchReply, r: Range,
                             fates0: seq<Fate>, fates1: seq<Fate>, stop: bool, fates: seq<Fate>)
    requires r.start <= r.end <= |uploads| && HasPrepared(uploads, readable, r.start, r.end, fates0, fates1)
    requires var ms := Members(uploads, readable, r.start, r.end);
             var given := MemberFates(Checked(answer(r.start), |ms|), |ms|);
             Recorded(ms, given, |ms|, fates1, fates) && (stop <==> Failed(true) in given)
    ensures BatchRan(uploads, readable, answer, r, fates0, stop, fates)
  {
    var ms := Members(uploads, readable, r.start, r.end);
    var given := MemberFates(Checked(answer(r.start), |ms|), |ms|);
    StopsIffMemberDoes(uploads, readable, answer, r);
    assert ms[..|ms|] == ms;
    forall i | r.start <= i < r.end ensures fates[i] == FateIn(uploads, readable, answer, r, i) != Untouched {
      MemberHasItsFate(uploads, readable, answer, r, i, fates[i]);
    }
    if stop {
      var k :| 0 <= k < |ms| && given[k] == Failed(true);
      assert fates[ms[k]] == Failed(true);
    }
  }

  /** One batch: prepare, send, record. */
  method RunBatch(uploads: seq<SyncAction>, readable: nat -> bool, answer: nat -> BatchReply, r: Range, g0: Progress,
                  ghost held0: set<Path>)
    returns (stop: bool, g: Progress)
    requires r.start <= r.end <= |uploads| && Accounts(uploads, held0, g0)
    requires forall i :: r.start <= i < r.end ==> g0.fates[i] == Untouched
    ensures Accounts(uploads, held0, g)
    ensures BatchRan(uploads, readable, answer, r, g0.fates, stop, g.fates)
  {
    var members, g1 := PrepareBatch(uploads, readable, r, g0, held0);
    MembersPending(uploads, readable, r, g1.fates);
    if members == [] {
      stop, g := false, g1;
    } else {
      stop, g := RecordBatch(uploads, members, MemberFates(Checked(answer(r.start), |members|), |members|), g1, held0);
    }
    PreparedThenRecorded(uploads, readable, answer, r, g0.fates, g1.fates, stop, g.fates);
  }

  ghost predicate UntouchedFrom(batches: seq<Range>, n: nat, fates: seq<Fate>)
    requires forall k :: 0 <= k < |batches| ==> batches[k].start <= batches[k].end <= |fates|
  {
    forall k, i :: n <= k < |batches| && batches[k].start <= i < batches[k].end ==> fates[i] == Untouched
  }

  /** The first `n` batches have run, and the last of them ended the phase if `stop`. */
  ghost predicate Underway(uploads: seq<SyncAction>, readable: nat -> bool, answer: nat -> BatchReply,
                           batches: seq<Range>, n: nat, stop: bool, fates: seq<Fate>) {
    && |fates| == |uploads| && n <= |batches| && Splits(Sizes(uploads), batches, |uploads|)
    && AsDictated(uploads, readable, answer, batches, n, fates) && UntouchedFrom(batches, n, fates)
    && (stop <==> StoppedBefore(uploads, readable, answer, batches, n))
    && (stop ==> Failed(true) in fates)
    && (!stop ==> forall k, i :: 0 <= k < n && batches[k].start <= i < batches[k].end ==> fates[i] != Untouched)
  }

  /** What `RunBatch` does to the fates. */
  ghost predicate BatchRan(uploads: seq<SyncAction>, readable: nat -> bool, answer: nat -> BatchReply, r: Range,
                           fates: seq<Fate>, stop: bool, fates': seq<Fate>)
    requires r.start <= r.end <= |uploads|
  {
    && |fates| == |fates'| == |uploads|
    && (stop <==> Stops(uploads, readable, answer, r))
    && (stop ==> Failed(true) in fates')
    && (forall i :: r.start <= i < r.end ==> fates'[i] == FateIn(uploads, readable, answer, r, i) != Untouched)
    && (forall i :: 0 <= i < |uploads| && !(r.start <= i < r.end) ==> fates'[i] == fates[i])
  }

  lemma OneMoreBatch(uploads: seq<SyncAction>, readable: nat -> bool, answer: nat -> BatchReply, batches: seq<Range>,
                     n: nat, fates: seq<Fate>, stop: bool, fates': seq<Fate>)
    requires n < |batches| && Underway(uploads, readable, answer, batches, n, false, fates)
    requires Fits(Sizes(uploads), batches[n])
    requires BatchRan(uploads, readable, answer, batches[n], fates, stop, fates')
    ensures Underway(uploads, readable, answer, batches, n + 1, stop, fates')
  {
    forall k, i | 0 <= k < |batches| && k != n && batches[k].start <= i < batches[k].end ensures fates'[i] == fates[i] {
      if k < n {
        BatchesApart(Sizes(uploads), batches, k, n);
      } else {
        BatchesApart(Sizes(uploads), batches, n, k);
      }
    }
  }

  lemma NoMoreBatches(uploads: seq<SyncAction>, readable: nat -> bool, answer: nat -> BatchReply, batches: seq<Range>,
                      n: nat, stop: bool, fates: seq<Fate>)
    requires Underway(uploads, readable, answer, batches, n, stop, fates) && (n == |batches| || stop)
    ensures AsDictated(uploads, readable, answer, batches, |batches|, fates)
    ensures Untouched in fates ==> Failed(true) in fates
  {
    if Untouched in fates {
      var i :| 0 <= i < |fates| && fates[i] == Untouched;
      var k := BatchOf(Sizes(uploads), batches, |batches|, i);
    }
  }

  lemma {:induction false} BatchesApart(sizes: seq<nat>, batches: seq<Range>, j: nat, k: nat)
    requires Splits(sizes, batches, |sizes|) && j < k < |batches|
    ensures batches[j].end <= batches[k].start
  {
    if j < k - 1 {
      BatchesApart(sizes, batches, j, k - 1);
      assert Fits(sizes, batches[k - 1]);
    }
  }

  /**
   * The upload phase. Every upload gets exactly the fate its own answer dictates, or none when an
   * earlier batch ended the phase; the counters, failures, late conflicts and hold-back set are
   * exactly those of the fates; and an upload is left untouched only after a recorded fatal failure.
   */
  method RunUploads(uploads: seq<SyncAction>, readable: nat -> bool, answer: nat -> BatchReply, held0: set<Path>)
    returns (g: Progress, batches: seq<Range>)
    ensures Accounts(uploads, held0, g)
    ensures Splits(Sizes(uploads), batches, |uploads|)
    ensures AsDictated(uploads, readable, answer, batches, |batches|, g.fates)
    ensures Untouched in g.fates ==> exists f :: f in g.failures && f.fatal
  {
    batches := ChunkUploads(Sizes(uploads));
    g := Progress(0, [], [], held0, seq(|uploads|, _ => Untouched));
    NoEntries(g.fates, |uploads|);
    var n, stop := 0, false;
    while n < |batches| && !stop
      invariant Accounts(uploads, held0, g)
      invariant Underway(uploads, readable, answer, batches, n, stop, g.fates)
      decreases |batches| - n
    {
      ghost var before := g.fates;
      assert Fits(Sizes(uploads), batches[n]);
      stop, g := RunBatch(uploads, readable, answer, batches[n], g, held0);
      OneMoreBatch(uploads, readable, answer, batches, n, before, stop, g.fates);
      n := n + 1;
    }
    NoMoreBatches(uploads, readable, answer, batches, n, stop, g.fates);
    if Untouched in g.fates {
      FatalIsRecorded(uploads, held0, g);
    }
  }

  function Sizes(uploads: seq<SyncAction>): (sizes: seq<nat>)
    ensures |sizes| == |uploads|
  {
    seq(|uploads|, k requires 0 <= k < |uploads| => SizeOf(uploads[k]))
  }

  lemma {:induction false} BatchOf(sizes: seq<nat>, batches: seq<Range>, n: nat, i: nat) returns (k: nat)
    requires Splits(sizes, batches, |sizes|) && 0 < n <= |batches| && i < batches[n - 1].end
    ensures k < n && batches[k].start <= i < batches[k].end
  {
    if batches[n - 1].start <= i {
      k := n - 1;
    } else {
      k := BatchOf(sizes, batches, n - 1, i);
    }
  }

  lemma FatalIsRecorded(uploads: seq<SyncAction>, held0: set<Path>, g: Progress)
    requires Accounts(uploads, held0, g) && Failed(true) in g.fates
    ensures exists f :: f in g.failures && f.fatal
  {
    var i :| 0 <= i < |g.fates| && g.fates[i] == Failed(true);
    assert FailureOf(uploads[i], true) in g.failures;
  }

  lemma {:induction false} NoEntries(fates: seq<Fate>, n: nat)
    requires n <= |fates| && forall k :: 0 <= k < |fates| ==> fates[k] == Untouched
    ensures CountFates(fates, n) == Counts(0, 0, 0)
  {
    if n > 0 {
      NoEntries(fates, n - 1);
    }
  }
}
