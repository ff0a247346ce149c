/**
 The coalesced listing of apps/server/auth/google-adapter.ts, `listDomainGroups` (130-151): calls that
 miss the cache share one fetch. An event is what runs between two awaits; a snapshot is named by the
 fetch that brought it.
 */
module GroupsCache {
  import opened Wrappers

  const Ttl: nat := 5 * 60 * 1000

  datatype Fetch = Fetch(start: nat, end: Option<nat>, ok: bool)

  /** The field `allGroupsCache`: `fetchedAt` is the time of the call that stored it. */
  datatype Entry = Entry(fetchedAt: nat, fetch: nat)

  /** A call that awaits a fetch, and when it was made. */
  datatype Waiter = Waiter(now: nat, fetch: nat)

  /** History: a call made at `now` was given the snapshot of `fetch`, which a call made at `dated` stored. */
  datatype Served = Served(now: nat, fetch: nat, dated: nat)

  /** `joined` is history: all calls that ever waited. */
  datatype State = State(
    clock: nat, cache: Option<Entry>, slot: Option<nat>, fetches: seq<Fetch>,
    waiting: map<nat, Waiter>, calls: nat, served: seq<Served>, rejected: seq<nat>, joined: set<Waiter>)

  datatype Event = Tick(elapsed: nat) | Call | Settles(fetch: nat, ok: bool) | Resumes(call: nat)

  const Start := State(0, None, None, [], map[], 0, [], [], {})

  predicate Fresh(st: State) {
    st.cache.Some? && st.clock - st.cache.value.fetchedAt < Ttl
  }

  function CallStep(st: State): State {
    if Fresh(st) then st.(served := st.served + [Served(st.clock, st.cache.value.fetch, st.cache.value.fetchedAt)],
                          calls := st.calls + 1)
    else
      var st' := if st.slot.None?
                 then st.(slot := Some(|st.fetches|), fetches := st.fetches + [Fetch(st.clock, None, false)])
                 else st;
      var w := Waiter(st.clock, st'.slot.value);
      st'.(waiting := st.waiting[st.calls := w], calls := st.calls + 1, joined := st.joined + {w})
  }

  predicate Enabled(st: State, e: Event) {
    match e
    case Tick(_) => true
    case Call => true
    case Settles(f, _) => f < |st.fetches| && st.fetches[f].end.None?
    case Resumes(c) =>
      c in st.waiting && st.waiting[c].fetch < |st.fetches| && st.fetches[st.waiting[c].fetch].end.Some?
  }

  function Next(st: State, e: Event): State
    requires Enabled(st, e)
  {
    match e
    case Tick(d) => st.(clock := st.clock + d)
    case Call => CallStep(st)
    case Settles(f, ok) =>
      st.(fetches := st.fetches[f := Fetch(st.fetches[f].start, Some(st.clock), ok)], slot := None)
    case Resumes(c) =>
      var w := st.waiting[c];
      if st.fetches[w.fetch].ok
      then st.(cache := Some(Entry(w.now, w.fetch)), served := st.served + [Served(w.now, w.fetch, w.now)],
               waiting := st.waiting - {c})
      else st.(rejected := st.rejected + [c], waiting := st.waiting - {c})
  }

  ghost function Run(st: State, events: seq<Event>): State
    decreases |events|
  {
    if events == [] then st
    else
      var before := Run(st, events[..|events| - 1]);
      var e := events[|events| - 1];
      if Enabled(before, e) then Next(before, e) else before
  }

  // -------- What every run keeps

  ghost predicate FetchInv(st: State) {
    && (forall f :: 0 <= f < |st.fetches| ==> (st.fetches[f].end.None? <==> st.slot == Some(f)))
    && (st.slot.Some? ==> st.slot.value < |st.fetches|)
    && (forall f :: 0 <= f < |st.fetches| ==> st.fetches[f].start <= st.clock)
    && (forall f :: 0 <= f < |st.fetches| && st.fetches[f].end.Some? ==>
          st.fetches[f].start <= st.fetches[f].end.value <= st.clock)
    && (forall f, g :: 0 <= f < g < |st.fetches| ==>
          st.fetches[f].end.Some? && st.fetches[f].end.value <= st.fetches[g].start)
  }

  /** A call made at `now` and its fetch were under way at the same time. */
  ghost predicate Overlaps(st: State, now: nat, f: nat) {
    && f < |st.fetches| && st.fetches[f].start <= now <= st.clock
    && (st.fetches[f].end.Some? ==> now <= st.fetches[f].end.value)
  }

  ghost predicate WaitingInv(st: State) {
    && (forall c :: c in st.waiting ==> c < st.calls && st.waiting[c] in st.joined)
    && (forall w :: w in st.joined ==> Overlaps(st, w.now, w.fetch))
    && (st.cache.Some? ==>
          && Waiter(st.cache.value.fetchedAt, st.cache.value.fetch) in st.joined
          && Succeeded(st, st.cache.value.fetch))
  }

  ghost predicate Succeeded(st: State, f: nat) {
    f < |st.fetches| && st.fetches[f].end.Some? && st.fetches[f].ok
  }

  /** A snapshot that was stored by a call that had waited for it, and was then given out for five minutes. */
  ghost predicate Dated(st: State, s: Served) {
    && Succeeded(st, s.fetch) && Waiter(s.dated, s.fetch) in st.joined
    && s.dated <= s.now < s.dated + Ttl
  }

  ghost predicate ServedInv(st: State) {
    forall i :: 0 <= i < |st.served| ==> Dated(st, st.served[i])
  }

  ghost predicate Inv(st: State) {
    FetchInv(st) && WaitingInv(st) && ServedInv(st)
  }

  lemma CallKeepsFetches(st: State)
    requires FetchInv(st)
    ensures FetchInv(CallStep(st))
  {
    var st' := CallStep(st);
    if st'.fetches != st.fetches {
      var n := |st.fetches|;
      assert forall f :: 0 <= f < n ==> st'.fetches[f] == st.fetches[f];
      assert st'.fetches[n] == Fetch(st.clock, None, false);
    }
  }

  lemma SettleKeepsFetches(st: State, f: nat, ok: bool)
    requires FetchInv(st) && f < |st.fetches| && st.fetches[f].end.None?
    ensures FetchInv(Next(st, Settles(f, ok)))
  {
    var st' := Next(st, Settles(f, ok));
    var last := st.fetches[|st.fetches| - 1];
    assert last.start <= st.clock;
    assert f == |st.fetches| - 1;
    assert forall g :: 0 <= g < f ==> st'.fetches[g] == st.fetches[g];
  }

  lemma NextKeepsFetches(st: State, e: Event)
    requires FetchInv(st) && Enabled(st, e)
    ensures FetchInv(Next(st, e))
  {
    match e
    case Call => CallKeepsFetches(st);
    case Settles(f, ok) => SettleKeepsFetches(st, f, ok);
    case _ =>
  }

  lemma NextKeepsWaiting(st: State, e: Event)
    requires FetchInv(st) && WaitingInv(st) && Enabled(st, e)
    ensures WaitingInv(Next(st, e))
  {
    match e
    case Tick(d) =>
    case Call => CallKeepsWaiting(st);
    case Settles(f, ok) => SettleKeepsWaiting(st, f, ok);
    case Resumes(c) =>
  }

  lemma CallKeepsWaiting(st: State)
    requires FetchInv(st) && WaitingInv(st)
    ensures WaitingInv(CallStep(st))
  {
    var st' := CallStep(st);
    assert forall f :: 0 <= f < |st.fetches| ==> st'.fetches[f] == st.fetches[f];
    if !Fresh(st) {
      assert Overlaps(st', st.clock, st'.slot.value);
    }
  }

  lemma SettleKeepsWaiting(st: State, f: nat, ok: bool)
    requires FetchInv(st) && WaitingInv(st) && Enabled(st, Settles(f, ok))
    ensures WaitingInv(Next(st, Settles(f, ok)))
  {
    assert forall g :: 0 <= g < |st.fetches| && g != f ==> Next(st, Settles(f, ok)).fetches[g] == st.fetches[g];
  }

  lemma NextKeepsServed(st: State, e: Event)
    requires FetchInv(st) && WaitingInv(st) && ServedInv(st) && Enabled(st, e)
    ensures ServedInv(Next(st, e))
  {
    var st' := Next(st, e);
    forall i | 0 <= i < |st'.served| ensures Dated(st', st'.served[i]) {
      if i < |st.served| {
        assert Dated(st, st.served[i]);
      }
    }
  }

  lemma {:induction false} RunKeeps(events: seq<Event>)
    ensures Inv(Run(Start, events))
    decreases |events|
  {
    if events != [] {
      RunKeeps(events[..|events| - 1]);
      var before, e := Run(Start, events[..|events| - 1]), events[|events| - 1];
      if Enabled(before, e) {
        NextKeepsFetches(before, e);
        NextKeepsWaiting(before, e);
        NextKeepsServed(before, e);
      }
    }
  }

  // -------- What that means

  /** At most one fetch is in flight; of any two the later one starts after the earlier has ended. */
  lemma OneFetchAtATime(events: seq<Event>, f: nat, g: nat)
    requires f < g < |Run(Start, events).fetches|
    ensures var st := Run(Start, events);
      st.fetches[f].end.Some? && st.fetches[f].end.value <= st.fetches[g].start
  {
    RunKeeps(events);
  }

  /** How far behind the start of its fetch a snapshot was when it was asked for. */
  function Age(st: State, s: Served): int
    requires s.fetch < |st.fetches|
  {
    s.now - st.fetches[s.fetch].start
  }

  /**
   Every snapshot served, to the caller that fetched, to one that joined, or from the cache, comes from a
   fetch that succeeded and started less than five minutes and that fetch's duration before the call.
   */
  lemma ServedIsRecent(events: seq<Event>, i: nat)
    requires i < |Run(Start, events).served|
    ensures var st := Run(Start, events); var s := st.served[i];
      && Succeeded(st, s.fetch)
      && 0 <= Age(st, s) < Ttl + (st.fetches[s.fetch].end.value - st.fetches[s.fetch].start)
  {
    RunKeeps(events);
    var st := Run(Start, events);
    assert Dated(st, st.served[i]) && Overlaps(st, st.served[i].dated, st.served[i].fetch);
  }

  /** Every snapshot served was dated by a call that had waited for its fetch, and given out for less than five minutes. */
  lemma ServedIsDated(events: seq<Event>, i: nat)
    requires i < |Run(Start, events).served|
    ensures var st := Run(Start, events); var s := st.served[i];
      && Succeeded(st, s.fetch) && Waiter(s.dated, s.fetch) in st.joined
      && 0 <= s.now - s.dated < Ttl && s.dated >= st.fetches[s.fetch].start
      && ((forall w :: w in st.joined && w.fetch == s.fetch ==> w.now == st.fetches[s.fetch].start) ==> Age(st, s) < Ttl)
  {
    RunKeeps(events);
    var st := Run(Start, events);
    assert Dated(st, st.served[i]) && Overlaps(st, st.served[i].dated, st.served[i].fetch);
  }

  // -------- When a snapshot can be served late

  /** The entry holds `f`, is fresh, and was dated by a call that joined after the fetch had started. */
  ghost predicate LateEntry(st: State, f: nat)
    requires f < |st.fetches|
  {
    Fresh(st) && st.cache.value.fetch == f && st.cache.value.fetchedAt > st.fetches[f].start
  }

  /**
   A call that joined `f` late is still to resume: so late that it is past the five minutes itself, or in
   time for the entry that it dates to be fresh.
   */
  ghost predicate LateWaiter(st: State, f: nat, c: nat)
    requires f < |st.fetches|
  {
    && c in st.waiting && st.waiting[c].fetch == f
    && var now := st.waiting[c].now;
       now >= st.fetches[f].start + Ttl || (now > st.fetches[f].start && st.clock < now + Ttl)
  }

  ghost predicate CanBeLate(st: State, f: nat)
    requires f < |st.fetches|
  {
    LateEntry(st, f) || exists c :: LateWaiter(st, f, c)
  }

  /** Behind the first `n` serves there is one of `f` five minutes or more behind the start of its fetch. */
  ghost predicate ServedLate(st: State, f: nat, n: nat) {
    f < |st.fetches| && exists i :: n <= i < |st.served| && st.served[i].fetch == f && Age(st, st.served[i]) >= Ttl
  }

  lemma LateStep(st: State, e: Event, f: nat)
    requires FetchInv(st) && Succeeded(st, f) && Enabled(st, e)
    ensures var st' := Next(st, e);
      && Succeeded(st', f) && st'.fetches[f] == st.fetches[f] && |st.served| <= |st'.served|
      && (forall i :: 0 <= i < |st.served| ==> st'.served[i] == st.served[i])
      && (CanBeLate(st', f) ==> CanBeLate(st, f))
      && (ServedLate(st', f, |st.served|) ==> CanBeLate(st, f))
  {
    var st' := Next(st, e);
    assert st.slot != Some(f);
    match e
    case Resumes(c) =>
      if st.waiting[c].fetch == f && (LateEntry(st', f) || ServedLate(st', f, |st.served|)) {
        assert LateWaiter(st, f, c);
      } else if CanBeLate(st', f) && !LateEntry(st', f) {
        var d :| LateWaiter(st', f, d);
        assert LateWaiter(st, f, d);
      }
    case _ =>
      if CanBeLate(st', f) && !LateEntry(st', f) {
        var d :| LateWaiter(st', f, d);
        assert LateWaiter(st, f, d);
      }
  }

  lemma {:induction false} LateRun(st: State, more: seq<Event>, f: nat)
    requires FetchInv(st) && Succeeded(st, f)
    ensures var st' := Run(st, more);
      && FetchInv(st') && Succeeded(st', f) && st'.fetches[f] == st.fetches[f] && |st.served| <= |st'.served|
      && (CanBeLate(st', f) ==> CanBeLate(st, f))
      && (ServedLate(st', f, |st.served|) ==> CanBeLate(st, f))
    decreases |more|
  {
    if more != [] {
      var rest, e := more[..|more| - 1], more[|more| - 1];
      LateRun(st, rest, f);
      var before := Run(st, rest);
      if Enabled(before, e) {
        NextKeepsFetches(before, e);
        LateStep(before, e, f);
        var st' := Next(before, e);
        if ServedLate(st', f, |st.served|) && !ServedLate(st', f, |before.served|) {
          var i :| |st.served| <= i < |st'.served| && st'.served[i].fetch == f && Age(st', st'.served[i]) >= Ttl;
          assert before.served[i] == st'.served[i];
        }
      }
    }
  }

  lemma RunOne(st: State, more: seq<Event>, e: Event)
    ensures Run(st, more + [e]) == var before := Run(st, more); if Enabled(before, e) then Next(before, e) else before
  {
    assert (more + [e])[..|more|] == more;
  }

  /** In this continuation `f` is served late. */
  ghost predicate ServesLate(st: State, more: seq<Event>, f: nat) {
    ServedLate(Run(st, more), f, |st.served|)
  }

  /** From a late entry: wait as long as it stays fresh, and call. */
  lemma EntryServesLate(st: State, f: nat) returns (more: seq<Event>)
    requires FetchInv(st) && Succeeded(st, f) && LateEntry(st, f)
    ensures ServesLate(st, more, f)
  {
    var d := st.cache.value.fetchedAt + Ttl - 1 - st.clock;
    more := [Tick(d)];
    assert more[..0] == [] && Run(st, []) == st;
    RunOne(st, more, Call);
    more := more + [Call];
    var st' := Run(st, more);
    assert st'.served[|st.served|] == Served(st.clock + d, f, st.cache.value.fetchedAt);
  }

  lemma WaiterServesLate(st: State, f: nat, c: nat) returns (more: seq<Event>)
    requires FetchInv(st) && Succeeded(st, f) && LateWaiter(st, f, c)
    ensures ServesLate(st, more, f)
  {
    var w := st.waiting[c];
    var first := [Resumes(c)];
    assert first[..0] == [] && Run(st, []) == st;
    var st1 := Next(st, Resumes(c));
    assert Run(st, first) == st1 && st1.served[|st.served|] == Served(w.now, f, w.now);
    if w.now >= st.fetches[f].start + Ttl {
      more := first;
    } else {
      NextKeepsFetches(st, Resumes(c));
      assert st1.cache == Some(Entry(w.now, f)) && st1.fetches == st.fetches && LateEntry(st1, f);
      var rest := EntryServesLate(st1, f);
      RunJoins(st, first, rest);
      more := first + rest;
    }
  }

  lemma {:induction false} RunJoins(st: State, x: seq<Event>, y: seq<Event>)
    ensures Run(st, x + y) == Run(Run(st, x), y)
    decreases |y|
  {
    if y == [] {
      assert x + y == x;
    } else {
      assert (x + y)[..|x + y| - 1] == x + y[..|y| - 1];
      RunJoins(st, x, y[..|y| - 1]);
    }
  }

  /**
   Once a fetch has succeeded, some continuation serves it five minutes or more behind its start exactly if
   the entry is fresh and was dated by a call that joined late, or such a call is still to resume. Without
   one the entry decides alone.
   */
  lemma ServedLateIff(events: seq<Event>, f: nat)
    requires Succeeded(Run(Start, events), f)
    ensures var st := Run(Start, events);
      && ((exists more :: ServesLate(st, more, f)) <==> CanBeLate(st, f))
      && ((forall c :: c in st.waiting ==> st.waiting[c].fetch != f) ==> (CanBeLate(st, f) <==> LateEntry(st, f)))
  {
    RunKeeps(events);
    var st := Run(Start, events);
    forall more | ServesLate(st, more, f) ensures CanBeLate(st, f) {
      LateRun(st, more, f);
    }
    if LateEntry(st, f) {
      var more := EntryServesLate(st, f);
    } else if CanBeLate(st, f) {
      var c :| LateWaiter(st, f, c);
      var more := WaiterServesLate(st, f, c);
    }
  }

  /** A rejected fetch leaves the cache alone and the slot empty; without a fresh entry the next call fetches anew. */
  lemma RejectionIsRetried(events: seq<Event>, f: nat)
    requires Enabled(Run(Start, events), Settles(f, false))
    ensures
      var st := Run(Start, events);
      var st' := Next(st, Settles(f, false));
      && st'.cache == st.cache && st'.slot.None?
      && (!Fresh(st') ==> |Next(st', Call).fetches| == |st'.fetches| + 1)
      && (forall c :: c in st'.waiting && st'.waiting[c].fetch == f ==>
            Enabled(st', Resumes(c)) && Next(st', Resumes(c)).cache == st.cache && Next(st', Resumes(c)).served == st.served)
  {
    RunKeeps(events);
  }

  /**
   Until a fetch settles, calls share it: however many miss the cache meanwhile, no other fetch starts, and
   each of them gets the outcome of this one.
   */
  lemma {:induction false} MissesShareTheFetch(st: State, more: seq<Event>, f: nat)
    requires st.slot == Some(f) && forall ok :: Settles(f, ok) !in more
    requires FetchInv(st) && forall c :: c in st.waiting ==> c < st.calls
    ensures var st' := Run(st, more);
      && st'.slot == Some(f) && st'.fetches == st.fetches && st.calls <= st'.calls && FetchInv(st')
      && (forall c :: c in st'.waiting ==> c < st'.calls)
      && (forall c :: c in st'.waiting && c >= st.calls ==> st'.waiting[c].fetch == f)
    decreases |more|
  {
    if more != [] {
      var rest, e := more[..|more| - 1], more[|more| - 1];
      assert more == rest + [e] && forall x :: x in rest ==> x in more;
      MissesShareTheFetch(st, rest, f);
      if Enabled(Run(st, rest), e) {
        NextKeepsFetches(Run(st, rest), e);
      }
    }
  }

  /**
   The bound cannot do without the duration: the call that resumes last dates the entry, so a fetch of `d`
   milliseconds can be served when it is `d - 1` older than five minutes.
   */
  lemma JoinerMakesItOlder(d: nat)
    requires d > 1
    ensures
      var events := [Call, Tick(d), Call, Settles(0, true), Resumes(0), Resumes(1), Tick(Ttl - 1), Call];
      var st := Run(Start, events);
      st.served == [Served(0, 0, 0), Served(d, 0, d), Served(d + Ttl - 1, 0, d)] && st.fetches == [Fetch(0, Some(d), true)]
  {
    var events := [Call, Tick(d), Call, Settles(0, true), Resumes(0), Resumes(1), Tick(Ttl - 1), Call];
    assert events[..8] == events;
    assert Run(Start, events[..0]) == Start;
    forall k | 0 <= k < 8 ensures events[..k + 1][..k] == events[..k] {
    }
    var s1 := State(0, None, Some(0), [Fetch(0, None, false)], map[0 := Waiter(0, 0)], 1, [], [], {Waiter(0, 0)});
    assert Run(Start, events[..1]) == s1;
    var s3 := s1.(clock := d, waiting := map[0 := Waiter(0, 0), 1 := Waiter(d, 0)], calls := 2,
                  joined := {Waiter(0, 0), Waiter(d, 0)});
    assert Run(Start, events[..2]) == s1.(clock := d);
    assert Run(Start, events[..3]) == s3;
    var s4 := s3.(slot := None, fetches := [Fetch(0, Some(d), true)]);
    assert Run(Start, events[..4]) == s4;
    var s6 := s4.(cache := Some(Entry(d, 0)), served := [Served(0, 0, 0), Served(d, 0, d)], waiting := map[]);
    assert Run(Start, events[..5]).waiting == map[1 := Waiter(d, 0)];
    assert Run(Start, events[..6]) == s6;
    assert Run(Start, events[..7]) == s6.(clock := d + Ttl - 1);
  }

  // -------- The code

  class Cache {
    var clock: nat
    var allGroupsCache: Option<Entry>
    var inFlight: Option<nat>
    var fetches: seq<Fetch>
    var waiting: map<nat, Waiter>
    var calls: nat
    ghost var served: seq<Served>
    ghost var rejected: seq<nat>
    ghost var joined: set<Waiter>

    ghost function View(): State reads this {
      State(clock, allGroupsCache, inFlight, fetches, waiting, calls, served, rejected, joined)
    }

    constructor ()
      ensures View() == Start
    {
      clock, allGroupsCache, inFlight, fetches, waiting, calls := 0, None, None, [], map[], 0;
      served, rejected, joined := [], [], {};
    }

    /** Until the await, or to the end with a fresh entry. */
    method ListDomainGroups() returns (snapshot: Option<nat>)
      modifies this
      ensures View() == Next(old(View()), Call)
      ensures snapshot.Some? <==> Fresh(old(View()))
      ensures snapshot.Some? ==> allGroupsCache.Some? && served == old(served) + [Served(clock, snapshot.value, allGroupsCache.value.fetchedAt)]
    {
      var now := clock;
      calls := calls + 1;
      if allGroupsCache.None? || now - allGroupsCache.value.fetchedAt >= Ttl {
        if inFlight.None? {
          inFlight := Some(|fetches|);
          fetches := fetches + [Fetch(now, None, false)];
        }
        waiting := waiting[calls - 1 := Waiter(now, inFlight.value)];
        joined := joined + {Waiter(now, inFlight.value)};
        return None;
      }
      served := served + [Served(now, allGroupsCache.value.fetch, allGroupsCache.value.fetchedAt)];
      snapshot := Some(allGroupsCache.value.fetch);
    }

    /** `finally`: whatever the outcome, the slot is cleared. */
    method Settle(fetch: nat, ok: bool)
      requires Enabled(View(), Settles(fetch, ok))
      modifies this
      ensures View() == Next(old(View()), Settles(fetch, ok))
    {
      fetches := fetches[fetch := Fetch(fetches[fetch].start, Some(clock), ok)];
      inFlight := None;
    }

    /** Behind the await: the snapshot is stored under the time of this call, or the call fails. */
    method Resume(call: nat) returns (snapshot: Option<nat>)
      requires Enabled(View(), Resumes(call))
      modifies this
      ensures View() == Next(old(View()), Resumes(call))
      ensures snapshot.None? ==> allGroupsCache == old(allGroupsCache)
    {
      var w := waiting[call];
      waiting := waiting - {call};
      if !fetches[w.fetch].ok {
        rejected := rejected + [call];
        return None;
      }
      allGroupsCache := Some(Entry(w.now, w.fetch));
      served := served + [Served(w.now, w.fetch, w.now)];
      snapshot := Some(w.fetch);
    }
  }
}
