/** The `Debouncer` of `core/src/daemon.rs`: per-path quiet timers, a batch window and a stat gate. */
module Debouncing {
  import opened Types

  /** When a path was last armed, and its stat pair then. */
  datatype Armed = Armed(at: nat, stat: Option<Stat>)

  type Pending = map<Path, Armed>

  datatype Timers = Timers(quiet: nat, batch: nat, pending: Pending, first: Option<nat>)

  /** Instants subtract to zero rather than below it. */
  function Since(now: nat, at: nat): nat {
    if now >= at then now - at else 0
  }

  ghost predicate IsLast(pending: Pending, t: nat) {
    && (exists p :: p in pending && pending[p].at == t)
    && (forall p :: p in pending ==> pending[p].at <= t)
  }

  function Observed(s: Timers, p: Path, stat: Option<Stat>, now: nat): Timers {
    s.(first := if s.first.Some? then s.first else Some(now), pending := s.pending[p := Armed(now, stat)])
  }

  /** The path has been quiet long enough and its stat pair has not moved. */
  predicate Calm(s: Timers, now: nat, statNow: Path -> Option<Stat>, p: Path)
    requires p in s.pending
  {
    Since(now, s.pending[p].at) >= s.quiet && statNow(p) == s.pending[p].stat
  }

  /** A quiet path whose stat pair moved is armed again. */
  function Rearmed(s: Timers, now: nat, statNow: Path -> Option<Stat>, p: Path): Armed
    requires p in s.pending
  {
    if Since(now, s.pending[p].at) >= s.quiet && statNow(p) != s.pending[p].stat then Armed(now, statNow(p))
    else s.pending[p]
  }

  ghost predicate Releases(s: Timers, now: nat, statNow: Path -> Option<Stat>) {
    s.first.Some? && (Since(now, s.first.value) >= s.batch || forall p :: p in s.pending ==> Calm(s, now, statNow, p))
  }

  ghost function Passed(s: Timers, now: nat, statNow: Path -> Option<Stat>): Timers {
    if s.first.None? then s
    else if Releases(s, now, statNow) then s.(pending := map[], first := None)
    else s.(pending := map p | p in s.pending :: Rearmed(s, now, statNow, p))
  }

  class Debouncer {
    const quiet: nat
    const batch: nat
    var pending: Pending
    var first: Option<nat>

    ghost function State(): Timers
      reads this
    {
      Timers(quiet, batch, pending, first)
    }

    constructor (quiet: nat, batch: nat)
      ensures State() == Timers(quiet, batch, map[], None)
    {
      this.quiet, this.batch, pending, first := quiet, batch, map[], None;
    }

    method Observe(path: Path, stat: Option<Stat>, now: nat)
      modifies this
      ensures State() == Observed(old(State()), path, stat, now)
    {
      if first.None? {
        first := Some(now);
      }
      pending := pending[path := Armed(now, stat)];
    }

    /** When to look again: the end of the batch window, or of the last path's quiet period. */
    method NextDeadline() returns (deadline: Option<nat>)
      ensures deadline.Some? <==> first.Some? && pending != map[]
      ensures deadline.Some? ==> DeadlineIs(State(), deadline.value)
    {
      if first.None? || pending == map[] {
        return None;
      }
      var todo := pending.Keys;
      var last := 0;
      while todo != {}
        invariant todo <= pending.Keys
        invariant forall p :: p in pending && p !in todo ==> pending[p].at <= last
        invariant last == 0 || exists p :: p in pending && p !in todo && pending[p].at == last
        decreases todo
      {
        var p :| p in todo;
        if pending[p].at > last {
          last := pending[p].at;
        }
        todo := todo - {p};
      }
      var some :| some in pending;
      assert pending[some].at <= last;
      assert last == 0 ==> pending[some].at == last;
      assert IsLast(pending, last);
      deadline := Some(Earlier(first.value + batch, last + quiet));
    }

    /** One look at the clock: everything pending is given out, or nothing is. */
    method Due(now: nat, statNow: Path -> Option<Stat>) returns (ready: Option<set<Path>>)
      modifies this
      ensures State() == Passed(old(State()), now, statNow)
      ensures ready == if Releases(old(State()), now, statNow) then Some(old(pending).Keys) else None
    {
      if first.None? {
        return None;
      }
      if Since(now, first.value) >= batch {
        ready := TakeAll();
        return;
      }
      ghost var s := State();
      var allQuiet, todo := true, pending.Keys;
      while todo != {}
        invariant todo <= s.pending.Keys && first == s.first
        invariant pending == map p | p in s.pending :: if p in todo then s.pending[p] else Rearmed(s, now, statNow, p)
        invariant allQuiet <==> forall p :: p in s.pending && p !in todo ==> Calm(s, now, statNow, p)
        decreases todo
      {
        var p :| p in todo;
        var armed := pending[p];
        if Since(now, armed.at) < quiet {
          allQuiet := false;
        } else {
          var current := statNow(p);
          if current != armed.stat {
            pending := pending[p := Armed(now, current)];
            allQuiet := false;
          }
        }
        todo := todo - {p};
      }
      if allQuiet {
        ready := TakeAll();
      } else {
        ready := None;
      }
    }

    method TakeAll() returns (ready: Option<set<Path>>)
      modifies this
      ensures State() == old(State()).(pending := map[], first := None)
      ensures ready == Some(old(pending).Keys)
    {
      first := None;
      ready := Some(pending.Keys);
      pending := map[];
    }
  }

  function Earlier(a: nat, b: nat): nat {
    if a < b then a else b
  }

  ghost predicate DeadlineIs(s: Timers, deadline: nat) {
    s.first.Some? && exists last: nat ::
      IsLast(s.pending, last) && deadline == Earlier(s.first.value + s.batch, last + s.quiet)
  }

  // ---- Runs -------------------------------------------------------------------------------

  datatype Event = Edit(now: nat, path: Path, stat: Option<Stat>) | Look(now: nat, statNow: Path -> Option<Stat>)

  ghost function Next(s: Timers, e: Event): Timers {
    match e
    case Edit(now, p, stat) => Observed(s, p, stat, now)
    case Look(now, statNow) => Passed(s, now, statNow)
  }

  ghost function After(quiet: nat, batch: nat, events: seq<Event>): Timers {
    if events == [] then Timers(quiet, batch, map[], None)
    else Next(After(quiet, batch, events[..|events| - 1]), events[|events| - 1])
  }

  /** The edits seen since the last look that released. */
  ghost function Unreleased(quiet: nat, batch: nat, events: seq<Event>): seq<Event> {
    if events == [] then []
    else
      var front, e := events[..|events| - 1], events[|events| - 1];
      if e.Edit? then Unreleased(quiet, batch, front) + [e]
      else if Releases(After(quiet, batch, front), e.now, e.statNow) then []
      else Unreleased(quiet, batch, front)
  }

  ghost predicate Mentions(edits: seq<Event>, p: Path) {
    exists k :: 0 <= k < |edits| && edits[k].Edit? && edits[k].path == p
  }

  ghost predicate Monotone(events: seq<Event>) {
    forall j, k :: 0 <= j < k < |events| ==> events[j].now <= events[k].now
  }

  ghost predicate NoLaterThan(s: Timers, now: nat) {
    && (s.first.Some? ==> s.first.value <= now)
    && (forall p :: p in s.pending ==> s.pending[p].at <= now && s.first.Some? && s.first.value <= s.pending[p].at)
  }

  /**
   * The pending paths are exactly those edited since the last release, the window opened at the
   * first of those edits, and it is open exactly while something is pending.
   */
  lemma {:induction false} PendingIsUnreleased(quiet: nat, batch: nat, events: seq<Event>)
    ensures var s, edits := After(quiet, batch, events), Unreleased(quiet, batch, events);
            && s.quiet == quiet && s.batch == batch
            && (forall p :: p in s.pending <==> Mentions(edits, p))
            && s.first == (if edits == [] then None else Some(edits[0].now))
            && (s.first.Some? <==> s.pending != map[])
  {
    if events != [] {
      var front, e := events[..|events| - 1], events[|events| - 1];
      PendingIsUnreleased(quiet, batch, front);
      var s, s', edits := After(quiet, batch, front), After(quiet, batch, events), Unreleased(quiet, batch, front);
      if e.Edit? {
        var edits' := edits + [e];
        forall p ensures p in s'.pending <==> Mentions(edits', p) {
          assert edits'[|edits|] == e;
          if Mentions(edits, p) {
            var k :| 0 <= k < |edits| && edits[k].Edit? && edits[k].path == p;
            assert edits'[k] == edits[k];
          }
        }
        assert e.path in s'.pending;
      } else if !Releases(s, e.now, e.statNow) {
        assert s'.pending.Keys == s.pending.Keys;
      }
    }
  }

  /**
   * What a look gives out, in any interleaving of edits and looks: exactly the paths edited since
   * the last release; always once the batch window is over; and before that only when every one
   * of them has been quiet and unmoved.
   */
  lemma LookReleasesTheUnreleased(quiet: nat, batch: nat, events: seq<Event>, now: nat, statNow: Path -> Option<Stat>)
    ensures var s, edits := After(quiet, batch, events), Unreleased(quiet, batch, events);
            && (Releases(s, now, statNow) ==> forall p :: p in s.pending.Keys <==> Mentions(edits, p))
            && (edits != [] && now >= edits[0].now + batch ==> Releases(s, now, statNow))
            && (edits != [] && Releases(s, now, statNow) && Since(now, edits[0].now) < batch ==>
                  forall p :: Mentions(edits, p) ==> Calm(s, now, statNow, p))
  {
    PendingIsUnreleased(quiet, batch, events);
  }

  lemma {:induction false} ClockBounds(quiet: nat, batch: nat, events: seq<Event>, now: nat)
    requires Monotone(events) && (events != [] ==> events[|events| - 1].now <= now)
    ensures NoLaterThan(After(quiet, batch, events), now)
  {
    if events != [] {
      var front, e := events[..|events| - 1], events[|events| - 1];
      ClockBounds(quiet, batch, front, e.now);
    }
  }

  /**
   * Before its deadline a look releases nothing. A look at or after the deadline that still
   * releases nothing moves the deadline strictly past now.
   */
  lemma DeadlineIsExact(s: Timers, now: nat, statNow: Path -> Option<Stat>, deadline: nat)
    requires NoLaterThan(s, now) && DeadlineIs(s, deadline)
    ensures now < deadline ==> !Releases(s, now, statNow)
    ensures deadline <= now && !Releases(s, now, statNow) && s.quiet > 0 ==>
              exists later: nat :: now < later && DeadlineIs(Passed(s, now, statNow), later)
  {
    if deadline <= now && !Releases(s, now, statNow) && s.quiet > 0 {
      LateLookRearms(s, now, statNow, deadline);
      var s' := Passed(s, now, statNow);
      assert DeadlineIs(s', Earlier(s.first.value + s.batch, now + s.quiet));
    }
  }

  /** A late look that releases nothing found everything quiet, so something moved and is armed at `now`. */
  lemma LateLookRearms(s: Timers, now: nat, statNow: Path -> Option<Stat>, deadline: nat)
    requires NoLaterThan(s, now) && DeadlineIs(s, deadline) && deadline <= now && !Releases(s, now, statNow)
    ensures IsLast(Passed(s, now, statNow).pending, now) && now < s.first.value + s.batch
    ensures exists last: nat :: IsLast(s.pending, last) && last + s.quiet <= now
  {
    var last: nat :| IsLast(s.pending, last) && deadline == Earlier(s.first.value + s.batch, last + s.quiet);
    var s' := Passed(s, now, statNow);
    var p :| p in s.pending && !Calm(s, now, statNow, p);
    assert s.pending[p].at <= last;
    assert p in s'.pending && s'.pending[p].at == now;
  }

  // ---- How often a release can be put off -------------------------------------------------

  /** Looks without edits in between; `late` counts those at or after the deadline of their moment. */
  ghost predicate PutOff(s0: Timers, states: seq<Timers>, looks: seq<Event>) {
    && |states| == |looks| + 1 && states[0] == s0
    && Monotone(looks)
    && forall k :: 0 <= k < |looks| ==>
         && looks[k].Look? && NoLaterThan(states[k], looks[k].now)
         && !Releases(states[k], looks[k].now, looks[k].statNow)
         && states[k + 1] == Next(states[k], looks[k])
  }

  ghost predicate IsLate(s: Timers, now: nat) {
    exists deadline: nat :: DeadlineIs(s, deadline) && deadline <= now
  }

  ghost function CountLate(states: seq<Timers>, looks: seq<Event>, n: nat): nat
    requires n <= |looks| && |states| == |looks| + 1
  {
    if n == 0 then 0 else CountLate(states, looks, n - 1) + if IsLate(states[n - 1], looks[n - 1].now) then 1 else 0
  }

  ghost predicate Delayed(s0: Timers, s: Timers, late: nat) {
    && s.quiet == s0.quiet && s.batch == s0.batch && s.first == s0.first && s.first.Some?
    && exists last: nat :: IsLast(s.pending, last) && s.first.value + late * s.quiet <= last &&
         (late > 0 ==> last < s.first.value + s.batch)
  }

  lemma OneMoreLook(s0: Timers, s: Timers, late: nat, now: nat, statNow: Path -> Option<Stat>)
    requires Delayed(s0, s, late) && NoLaterThan(s, now) && !Releases(s, now, statNow)
    ensures Delayed(s0, Passed(s, now, statNow), late + if IsLate(s, now) then 1 else 0)
  {
    var last: nat :| IsLast(s.pending, last) && s.first.value + late * s.quiet <= last &&
                (late > 0 ==> last < s.first.value + s.batch);
    var s' := Passed(s, now, statNow);
    if IsLate(s, now) {
      var deadline: nat :| DeadlineIs(s, deadline) && deadline <= now;
      LateLookRearms(s, now, statNow, deadline);
      assert (late + 1) * s.quiet == late * s.quiet + s.quiet;
    } else if exists p :: p in s.pending && s'.pending[p].at == now {
      var p :| p in s.pending && s'.pending[p].at == now;
      assert p in s'.pending;
      assert IsLast(s'.pending, now);
    } else {
      var p :| p in s.pending && s.pending[p].at == last;
      assert forall q :: q in s.pending ==> s'.pending[q] == s.pending[q];
      assert p in s'.pending && IsLast(s'.pending, last);
    }
  }

  lemma {:induction false} HasLast(pending: Pending)
    requires pending != map[]
    ensures exists last: nat :: IsLast(pending, last)
  {
    var p :| p in pending;
    var rest := pending - {p};
    if rest == map[] {
      assert forall q :: q in pending ==> q == p || q in rest;
      assert IsLast(pending, pending[p].at);
    } else {
      HasLast(rest);
      var last: nat :| IsLast(rest, last);
      var q :| q in rest && rest[q].at == last;
      assert forall r :: r in pending ==> r == p || r in rest;
      assert IsLast(pending, if last < pending[p].at then pending[p].at else last);
    }
  }

  /** Without new edits, fewer than `batch / quiet` late looks (rounded up) can pass without a release. */
  lemma PutOffIsBounded(s0: Timers, since: nat, states: seq<Timers>, looks: seq<Event>)
    requires PutOff(s0, states, looks) && s0.first.Some? && s0.pending != map[] && NoLaterThan(s0, since)
    ensures var late := CountLate(states, looks, |looks|); late > 0 ==> late * s0.quiet < s0.batch
  {
    HasLast(s0.pending);
    var last: nat :| IsLast(s0.pending, last);
    assert Delayed(s0, s0, 0);
    DelayGrows(s0, states, looks, |looks|);
  }

  lemma {:induction false} DelayGrows(s0: Timers, states: seq<Timers>, looks: seq<Event>, n: nat)
    requires PutOff(s0, states, looks) && n <= |looks| && Delayed(s0, s0, 0)
    ensures Delayed(s0, states[n], CountLate(states, looks, n))
  {
    if n > 0 {
      DelayGrows(s0, states, looks, n - 1);
      OneMoreLook(s0, states[n - 1], CountLate(states, looks, n - 1), looks[n - 1].now, looks[n - 1].statNow);
    }
  }
}
