/**
 The single-flight token refresh of apps/desktop/src/auth.rs: `RefreshGate::resolve` and the request
 that calls it, `central_request_with_refresh`. Any number of requests run at once, on several threads.
 The gate's lock guards `last_ok`, and the generation moves only under it; it does not guard the stored JWT,
 which logins, logouts and the refresh command change at any time. So reading that JWT is one event and the
 start of the refresh it leads to another. A request can be cancelled where it awaits.
 */
module RefreshGate {
  import opened Wrappers

  type Jwt = string

  /**
   Where a request stands; `seen` is the generation it read before it was sent with `jwt`. `Cleared`: it
   holds the lock, has found no other JWT stored, and is about to start the refresh.
   */
  datatype Phase =
    | Sent(jwt: Jwt, seen: nat)
    | Unauthorized(jwt: Jwt, seen: nat)
    | Cleared(jwt: Jwt, seen: nat)
    | Refreshing(jwt: Jwt, seen: nat)
    | Resent(jwt: Jwt)
    | Over

  /** History of a finished refresh: who ran it, the generation that request had seen, how it went. */
  datatype Attempt = Attempt(who: nat, seen: nat, ok: bool)

  /** History of a start: who it was for, the generation and the JWT that request was sent with. */
  datatype Started = Started(who: nat, seen: nat, jwt: Jwt)

  /** History of a shared outcome: the request took the one of attempt `attempt`. */
  datatype Shared = Shared(who: nat, seen: nat, attempt: int, ok: bool)

  /** `holder` has the lock; it is kept from the check to the end of the refresh. */
  datatype State = State(
    generation: nat, lastOk: bool, holder: Option<nat>, stored: Option<Jwt>,
    requests: map<nat, Phase>, nextRequest: nat, sends: map<nat, nat>,
    attempts: seq<Attempt>, started: seq<Started>, aborted: seq<nat>, shared: seq<Shared>)

  datatype Event =
    | Send(jwt: Jwt)
    | Reply(request: nat, unauthorized: bool)
    | Lock(request: nat)
    | Starts(request: nat)
    | RefreshStores(request: nat, token: Jwt)
    | RefreshEnds(request: nat, answer: Option<Option<Jwt>>)
    | RetryReply(request: nat)
    | Cancel(request: nat)
    | StoredChanges(now: Option<Jwt>)

  const Start := State(0, false, None, None, map[], 0, map[], [], [], [], [])

  function SendStep(st: State, jwt: Jwt): State {
    st.(requests := st.requests[st.nextRequest := Sent(jwt, st.generation)],
        sends := st.sends[st.nextRequest := 1], nextRequest := st.nextRequest + 1)
  }

  /** The second and last send of a request. */
  function Resend(st: State, r: nat, jwt: Jwt): State
    requires r in st.sends
  {
    st.(requests := st.requests[r := Resent(jwt)], sends := st.sends[r := st.sends[r] + 1])
  }

  function End(st: State, r: nat): State {
    st.(requests := st.requests[r := Over])
  }

  /** `resolve`, from the lock to its read of the stored JWT: share an outcome, retry at once, or go on to refresh. */
  function LockStep(st: State, r: nat): State
    requires r in st.requests && st.requests[r].Unauthorized? && r in st.sends
  {
    var jwt, seen := st.requests[r].jwt, st.requests[r].seen;
    if st.generation != seen then
      var taken := st.(shared := st.shared + [Shared(r, seen, st.generation - 1, st.lastOk)]);
      if st.lastOk && st.stored.Some? then Resend(taken, r, st.stored.value) else End(taken, r)
    else if st.stored.Some? && st.stored.value != jwt then Resend(st, r, st.stored.value)
    else st.(holder := Some(r), requests := st.requests[r := Cleared(jwt, seen)])
  }

  /** `refresh()` begins, whatever is stored by now. */
  function StartsStep(st: State, r: nat): State
    requires r in st.requests && st.requests[r].Cleared?
  {
    var jwt, seen := st.requests[r].jwt, st.requests[r].seen;
    st.(requests := st.requests[r := Refreshing(jwt, seen)], started := st.started + [Started(r, seen, jwt)])
  }

  /** The refresh answers `Some(Ok(jwt))`, `Some(Err)` (here `Some(None)`) or `None`. */
  function RefreshEndsStep(st: State, r: nat, answer: Option<Option<Jwt>>): State
    requires r in st.requests && st.requests[r].Refreshing? && r in st.sends
  {
    var ok := answer.Some? && answer.value.Some?;
    var st' := st.(lastOk := ok, generation := st.generation + 1, holder := None,
                   attempts := st.attempts + [Attempt(r, st.requests[r].seen, ok)]);
    if ok then Resend(st', r, answer.value.value) else End(st', r)
  }

  /** The future is dropped: a held lock is released, nothing else is undone. */
  function CancelStep(st: State, r: nat): State
    requires r in st.requests
  {
    var st' := st.(requests := st.requests - {r});
    if st.requests[r].Refreshing? then st'.(holder := None, aborted := st.aborted + [st.requests[r].seen]) else st'
  }

  predicate Enabled(st: State, e: Event) {
    match e
    case Send(_) => true
    case Reply(r, _) => r in st.requests && st.requests[r].Sent?
    case Lock(r) => r in st.requests && st.requests[r].Unauthorized? && r in st.sends && st.holder.None?
    case Starts(r) => r in st.requests && st.requests[r].Cleared?
    case RefreshStores(r, _) => r in st.requests && st.requests[r].Refreshing?
    case RefreshEnds(r, _) => r in st.requests && st.requests[r].Refreshing? && r in st.sends
    case RetryReply(r) => r in st.requests && st.requests[r].Resent?
    case Cancel(r) => r in st.requests && !st.requests[r].Over? && !st.requests[r].Cleared?
    case StoredChanges(_) => true
  }

  function Next(st: State, e: Event): State
    requires Enabled(st, e)
  {
    match e
    case Send(jwt) => SendStep(st, jwt)
    case Reply(r, unauthorized) =>
      if unauthorized
      then st.(requests := st.requests[r := Unauthorized(st.requests[r].jwt, st.requests[r].seen)])
      else End(st, r)
    case Lock(r) => LockStep(st, r)
    case Starts(r) => StartsStep(st, r)
    case RefreshStores(_, token) => st.(stored := Some(token))
    case RefreshEnds(r, answer) => RefreshEndsStep(st, r, answer)
    case RetryReply(r) => End(st, r)
    case Cancel(r) => CancelStep(st, r)
    case StoredChanges(now) => st.(stored := now)
  }

  function Run(st: State, events: seq<Event>): State
    decreases |events|
  {
    if events == [] then st
    else
      var before := Run(st, events[..|events| - 1]);
      var e := events[|events| - 1];
      if Enabled(before, e) then Next(before, e) else before
  }

  // -------- What every run keeps

  function Count(s: seq<nat>, g: nat): nat {
    if s == [] then 0 else Count(s[..|s| - 1], g) + if s[|s| - 1] == g then 1 else 0
  }

  function StartsAt(s: seq<Started>, g: nat): nat {
    if s == [] then 0 else StartsAt(s[..|s| - 1], g) + if s[|s| - 1].seen == g then 1 else 0
  }

  /** The request is past the check of `resolve`, and before its end. */
  predicate Holding(st: State, r: nat) {
    r in st.requests && (st.requests[r].Cleared? || st.requests[r].Refreshing?)
  }

  /** The lock is held exactly by the one request that refreshes or is about to, and that request is up to date. */
  ghost predicate LockInv(st: State) {
    && (forall r :: r in st.requests ==> r < st.nextRequest)
    && (forall r :: Holding(st, r) ==> st.holder == Some(r) && st.requests[r].seen == st.generation)
    && (st.holder.Some? ==> Holding(st, st.holder.value))
    && (forall r :: r in st.requests && (st.requests[r].Sent? || st.requests[r].Unauthorized?) ==>
          st.requests[r].seen <= st.generation)
  }

  /** One finished attempt for every generation passed, made by a request that had seen just that one. */
  ghost predicate AttemptInv(st: State) {
    && |st.attempts| == st.generation
    && (forall k :: 0 <= k < |st.attempts| ==> st.attempts[k].seen == k)
    && (st.attempts != [] ==> st.lastOk == st.attempts[|st.attempts| - 1].ok)
    && (forall s :: s in st.shared ==>
          s.seen <= s.attempt < |st.attempts| && st.attempts[s.attempt].ok == s.ok)
  }

  ghost predicate SendInv(st: State) {
    && (forall r :: r in st.requests ==> r in st.sends)
    && (forall r :: r in st.sends ==> 1 <= st.sends[r] <= 2 && r < st.nextRequest)
    && (forall r :: r in st.requests && !st.requests[r].Resent? && !st.requests[r].Over? ==> st.sends[r] == 1)
  }

  predicate Running(st: State) {
    st.holder.Some? && st.holder.value in st.requests && st.requests[st.holder.value].Refreshing?
  }

  /** Every start at a generation was aborted, finished it, or is still running. */
  ghost predicate StartsAdd(st: State, g: nat) {
    StartsAt(st.started, g) ==
      Count(st.aborted, g) + (if g < st.generation then 1 else 0) + (if g == st.generation && Running(st) then 1 else 0)
  }

  ghost predicate StartInv(st: State) {
    forall g: nat :: StartsAdd(st, g)
  }

  ghost predicate Inv(st: State) {
    LockInv(st) && AttemptInv(st) && SendInv(st) && StartInv(st)
  }

  lemma CountAppend(s: seq<nat>, x: nat, g: nat)
    ensures Count(s + [x], g) == Count(s, g) + if x == g then 1 else 0
  {
    assert (s + [x])[..|s|] == s;
  }

  lemma StartsAppend(s: seq<Started>, x: Started, g: nat)
    ensures StartsAt(s + [x], g) == StartsAt(s, g) + if x.seen == g then 1 else 0
  {
    assert (s + [x])[..|s|] == s;
  }

  lemma StartsKept(st: State, e: Event)
    requires LockInv(st) && StartInv(st) && Enabled(st, e)
    ensures StartInv(Next(st, e))
  {
    forall g: nat ensures StartsAdd(Next(st, e), g) {
      StartsKeptAt(st, e, g);
    }
  }

  lemma StartsKeptAt(st: State, e: Event, g: nat)
    requires LockInv(st) && Enabled(st, e) && StartsAdd(st, g)
    ensures StartsAdd(Next(st, e), g)
  {
    match e
    case Starts(r) => StartsAppend(st.started, Started(r, st.requests[r].seen, st.requests[r].jwt), g);
    case RefreshEnds(r, answer) => EndCounts(st, r, answer, g);
    case Cancel(r) =>
      if st.requests[r].Refreshing? {
        CountAppend(st.aborted, st.requests[r].seen, g);
      } else {
        RunningStays(st, e);
      }
    case _ => RunningStays(st, e);
  }

  lemma EndCounts(st: State, r: nat, answer: Option<Option<Jwt>>, g: nat)
    requires LockInv(st) && Enabled(st, RefreshEnds(r, answer)) && StartsAdd(st, g)
    ensures StartsAdd(RefreshEndsStep(st, r, answer), g)
  {
  }

  lemma RunningStays(st: State, e: Event)
    requires LockInv(st) && Enabled(st, e) && !e.Starts? && !e.RefreshEnds?
    requires e.Cancel? ==> !st.requests[e.request].Refreshing?
    ensures var st' := Next(st, e);
      && st'.started == st.started && st'.aborted == st.aborted && st'.generation == st.generation
      && (Running(st') <==> Running(st))
  {
  }

  lemma LockEnds(st: State, r: nat, answer: Option<Option<Jwt>>)
    requires LockInv(st) && Enabled(st, RefreshEnds(r, answer))
    ensures LockInv(RefreshEndsStep(st, r, answer))
  {
  }

  lemma LockTaken(st: State, r: nat)
    requires LockInv(st) && Enabled(st, Lock(r))
    ensures LockInv(LockStep(st, r))
  {
  }

  lemma LockKept(st: State, e: Event)
    requires LockInv(st) && Enabled(st, e)
    ensures LockInv(Next(st, e))
  {
    match e
    case Lock(r) => LockTaken(st, r);
    case RefreshEnds(r, answer) => LockEnds(st, r, answer);
    case _ =>
  }

  lemma LockKeepsAttempts(st: State, r: nat)
    requires LockInv(st) && AttemptInv(st) && Enabled(st, Lock(r))
    ensures AttemptInv(LockStep(st, r))
  {
  }

  lemma EndKeepsAttempts(st: State, r: nat, answer: Option<Option<Jwt>>)
    requires LockInv(st) && AttemptInv(st) && Enabled(st, RefreshEnds(r, answer))
    ensures AttemptInv(RefreshEndsStep(st, r, answer))
  {
  }

  lemma AttemptsKept(st: State, e: Event)
    requires LockInv(st) && AttemptInv(st) && Enabled(st, e)
    ensures AttemptInv(Next(st, e))
  {
    match e
    case Lock(r) => LockKeepsAttempts(st, r);
    case RefreshEnds(r, answer) => EndKeepsAttempts(st, r, answer);
    case _ =>
  }

  lemma ResendKept(st: State, r: nat, jwt: Jwt)
    requires SendInv(st) && r in st.requests && st.sends[r] == 1
    ensures SendInv(Resend(st, r, jwt))
  {
  }

  lemma SendsKept(st: State, e: Event)
    requires SendInv(st) && Enabled(st, e)
    ensures SendInv(Next(st, e))
  {
    match e
    case Lock(r) => LockKeepsSends(st, r);
    case RefreshEnds(r, answer) =>
      if answer.Some? && answer.value.Some? {
        ResendKept(st, r, answer.value.value);
      }
    case _ =>
  }

  lemma LockKeepsSends(st: State, r: nat)
    requires SendInv(st) && Enabled(st, Lock(r))
    ensures SendInv(LockStep(st, r))
  {
    if st.stored.Some? {
      ResendKept(st, r, st.stored.value);
    }
  }

  /** `Inv` kept folded, so that a proof can hand it on without opening it. */
  ghost predicate Sound(st: State) {
    forall x {:trigger Inv(x)} :: x == st ==> Inv(x)
  }

  lemma NextKeeps(st: State, e: Event)
    requires Sound(st) && Enabled(st, e)
    ensures Sound(Next(st, e))
  {
    assert Inv(st);
    LockKept(st, e);
    AttemptsKept(st, e);
    SendsKept(st, e);
    StartsKept(st, e);
    assert Inv(Next(st, e));
  }

  lemma {:induction false} RunSound(events: seq<Event>)
    ensures Sound(Run(Start, events))
    decreases |events|
  {
    if events == [] {
      assert Inv(Start);
    } else {
      RunSound(events[..|events| - 1]);
      if Enabled(Run(Start, events[..|events| - 1]), events[|events| - 1]) {
        NextKeeps(Run(Start, events[..|events| - 1]), events[|events| - 1]);
      }
    }
  }

  lemma RunKeeps(events: seq<Event>)
    ensures Inv(Run(Start, events))
  {
    RunSound(events);
    assert Inv(Run(Start, events));
  }

  // -------- The theorems

  /** At most one refresh runs at a time. */
  lemma OneRefreshAtATime(events: seq<Event>, r: nat, q: nat)
    requires r in Run(Start, events).requests && q in Run(Start, events).requests
    requires Run(Start, events).requests[r].Refreshing? && Run(Start, events).requests[q].Refreshing?
    ensures r == q
  {
    RunKeeps(events);
  }

  /** At most one refresh finishes per generation: the k-th one was run by a request that had seen k. */
  lemma OneAttemptPerGeneration(events: seq<Event>, k: nat)
    requires k < |Run(Start, events).attempts|
    ensures |Run(Start, events).attempts| == Run(Start, events).generation
    ensures Run(Start, events).attempts[k].seen == k
  {
    RunKeeps(events);
  }

  /** Requests sent at one generation start one refresh between them, and one more for each that is dropped. */
  lemma StartsAreCounted(events: seq<Event>, g: nat)
    ensures StartsAt(Run(Start, events).started, g) <= Count(Run(Start, events).aborted, g) + 1
  {
    RunKeeps(events);
    assert StartsAdd(Run(Start, events), g);
  }

  /** Starts of a refresh for a request that was sent with another JWT. */
  function Outdated(started: seq<Started>, jwt: Jwt): nat {
    if started == [] then 0
    else Outdated(started[..|started| - 1], jwt) + if started[|started| - 1].jwt != jwt then 1 else 0
  }

  /** 1 while the holder of the lock is between its check and its start with another JWT. */
  function Owed(st: State, jwt: Jwt): nat {
    if st.holder.Some? && st.holder.value in st.requests && st.requests[st.holder.value].Cleared?
       && st.requests[st.holder.value].jwt != jwt
    then 1 else 0
  }

  /** Whatever is written to the Keychain, `jwt` stays stored. */
  ghost predicate StaysStored(events: seq<Event>, jwt: Jwt) {
    forall e :: e in events ==>
      (e.StoredChanges? ==> e.now == Some(jwt)) && (e.RefreshStores? ==> e.token == jwt)
  }

  lemma OutdatedStep(st: State, e: Event, jwt: Jwt)
    requires LockInv(st) && Enabled(st, e) && st.stored == Some(jwt) && StaysStored([e], jwt)
    ensures var st' := Next(st, e);
      && st'.stored == Some(jwt)
      && Outdated(st'.started, jwt) + Owed(st', jwt) == Outdated(st.started, jwt) + Owed(st, jwt)
  {
    assert e in [e];
    var st' := Next(st, e);
    if e.Starts? {
      assert st'.started[..|st.started|] == st.started;
    } else {
      assert st'.started == st.started;
    }
  }

  /**
   As long as one JWT stays stored, requests sent with an older one retry with it and start no refresh,
   however many there are. All that can still start for an older one is what was cleared for it before.
   */
  lemma {:induction false} StoredJwtStopsRefreshes(st: State, events: seq<Event>, jwt: Jwt)
    requires Sound(st) && st.stored == Some(jwt) && StaysStored(events, jwt)
    ensures var st' := Run(st, events);
      && Sound(st') && st'.stored == Some(jwt)
      && Outdated(st'.started, jwt) + Owed(st', jwt) == Outdated(st.started, jwt) + Owed(st, jwt)
    decreases |events|
  {
    if events != [] {
      var rest, e := events[..|events| - 1], events[|events| - 1];
      assert events == rest + [e];
      StoredJwtStopsRefreshes(st, rest, jwt);
      if Enabled(Run(st, rest), e) {
        assert Inv(Run(st, rest));
        OutdatedStep(Run(st, rest), e, jwt);
        NextKeeps(Run(st, rest), e);
      }
    }
  }

  /** In this continuation, with `jwt` stored, a refresh starts for another JWT. */
  ghost predicate StartsOutdated(st: State, events: seq<Event>, jwt: Jwt) {
    StaysStored(events, jwt) && Outdated(Run(st, events).started, jwt) > Outdated(st.started, jwt)
  }

  /**
   So with one JWT stored at most one refresh still starts for another, and one can exactly if the holder of
   the lock was between its check and its start when that JWT was stored.
   */
  lemma StartsOutdatedIff(st: State, jwt: Jwt)
    requires Sound(st) && st.stored == Some(jwt)
    ensures (exists events :: StartsOutdated(st, events, jwt)) <==> Owed(st, jwt) == 1
    ensures forall events :: StartsOutdated(st, events, jwt) ==>
              Outdated(Run(st, events).started, jwt) == Outdated(st.started, jwt) + 1
  {
    forall events | StartsOutdated(st, events, jwt)
      ensures Owed(st, jwt) == 1 && Outdated(Run(st, events).started, jwt) == Outdated(st.started, jwt) + 1
    {
      StoredJwtStopsRefreshes(st, events, jwt);
    }
    if Owed(st, jwt) == 1 {
      var r := st.holder.value;
      var events := [Starts(r)];
      assert events[..0] == [] && Run(st, []) == st;
      assert StartsStep(st, r).started[..|st.started|] == st.started;
      assert StartsOutdated(st, events, jwt);
    }
  }

  lemma RunStep(st: State, events: seq<Event>, e: Event)
    ensures Run(st, events + [e]) ==
            var before := Run(st, events); if Enabled(before, e) then Next(before, e) else before
  {
    assert (events + [e])[..|events|] == events;
  }

  /** A request sent with `stale` holds the lock and has found `stale` stored. */
  function Checked(stale: Jwt): State {
    State(0, false, Some(0), Some(stale), map[0 := Cleared(stale, 0)], 1, map[0 := 1], [], [], [], [])
  }

  lemma CheckedReached(stale: Jwt) returns (events: seq<Event>)
    ensures Run(Start, events) == Checked(stale)
  {
    events := [StoredChanges(Some(stale))];
    assert events[..0] == [] && Run(Start, []) == Start;
    RunStep(Start, events, Send(stale));
    events := events + [Send(stale)];
    RunStep(Start, events, Reply(0, true));
    events := events + [Reply(0, true)];
    RunStep(Start, events, Lock(0));
    events := events + [Lock(0)];
  }

  /** It happens: a login stores a new JWT right behind the check, and the refresh starts for the old one. */
  lemma LoginBehindTheCheck(stale: Jwt, newer: Jwt) returns (events: seq<Event>)
    requires stale != newer
    ensures var st := Run(Start, events);
      && st.stored == Some(newer) && st.started == [] && Owed(st, newer) == 1 && Enabled(st, Starts(0))
      && Next(st, Starts(0)).stored == Some(newer) && Next(st, Starts(0)).started == [Started(0, 0, stale)]
  {
    events := CheckedReached(stale);
    RunStep(Start, events, StoredChanges(Some(newer)));
    events := events + [StoredChanges(Some(newer))];
  }

  /** A request whose snapshot is out of date takes the outcome of a refresh that finished after it. */
  lemma SharedOutcomeIsLater(events: seq<Event>, s: Shared)
    requires s in Run(Start, events).shared
    ensures var attempts := Run(Start, events).attempts;
      s.seen <= s.attempt < |attempts| && attempts[s.attempt].ok == s.ok
  {
    RunKeeps(events);
  }

  lemma AtMostTwoSends(events: seq<Event>, r: nat)
    requires r in Run(Start, events).sends
    ensures 1 <= Run(Start, events).sends[r] <= 2
  {
    RunKeeps(events);
  }

  /** The lock never stays behind: who holds it can finish, and while nobody does any waiter can take it. */
  lemma LockIsNeverStuck(events: seq<Event>, r: nat)
    requires r in Run(Start, events).requests && Run(Start, events).requests[r].Unauthorized?
    ensures var st := Run(Start, events);
      Enabled(st, Lock(r)) ||
      (st.holder.Some? && (Enabled(st, Starts(st.holder.value)) || Enabled(st, RefreshEnds(st.holder.value, None))))
  {
    RunKeeps(events);
  }

  // -------- The gate itself

  class Gate {
    var generation: nat
    var lastOk: bool
    var holder: Option<nat>
    var stored: Option<Jwt>
    var requests: map<nat, Phase>
    var nextRequest: nat
    var sends: map<nat, nat>
    ghost var attempts: seq<Attempt>
    ghost var started: seq<Started>
    ghost var aborted: seq<nat>
    ghost var shared: seq<Shared>

    ghost function View(): State
      reads this
    {
      State(generation, lastOk, holder, stored, requests, nextRequest, sends, attempts, started, aborted, shared)
    }

    constructor ()
      ensures View() == Start
    {
      generation, lastOk, holder, stored := 0, false, None, None;
      requests, nextRequest, sends := map[], 0, map[];
      attempts, started, aborted, shared := [], [], [], [];
    }

    /** `resolve` once the lock is taken, up to its read of the stored JWT or to its answer. */
    method Resolve(r: nat)
      requires Enabled(View(), Lock(r))
      modifies this
      ensures View() == Next(old(View()), Lock(r))
    {
      var jwt, seen := requests[r].jwt, requests[r].seen;
      if generation != seen {
        shared := shared + [Shared(r, seen, generation - 1, lastOk)];
        if lastOk && stored.Some? {
          SendAgain(r, stored.value);
        } else {
          requests := requests[r := Over];
        }
        return;
      }
      if stored.Some? && stored.value != jwt {
        SendAgain(r, stored.value);
        return;
      }
      holder := Some(r);
      requests := requests[r := Cleared(jwt, seen)];
    }

    /** `refresh()` begins, with no second look at the stored JWT. */
    method Begin(r: nat)
      requires Enabled(View(), Starts(r))
      modifies this`requests, this`started
      ensures View() == Next(old(View()), Starts(r))
    {
      var jwt, seen := requests[r].jwt, requests[r].seen;
      requests := requests[r := Refreshing(jwt, seen)];
      started := started + [Started(r, seen, jwt)];
    }

    method SendAgain(r: nat, jwt: Jwt)
      requires r in sends
      modifies this`requests, this`sends
      ensures View() == Resend(old(View()), r, jwt)
    {
      requests := requests[r := Resent(jwt)];
      sends := sends[r := sends[r] + 1];
    }

    /** The rest of `resolve`: remember how it went, count the generation on, release the lock. */
    method Finish(r: nat, answer: Option<Option<Jwt>>)
      requires Enabled(View(), RefreshEnds(r, answer))
      modifies this
      ensures View() == Next(old(View()), RefreshEnds(r, answer))
    {
      lastOk := answer.Some? && answer.value.Some?;
      attempts := attempts + [Attempt(r, requests[r].seen, lastOk)];
      generation := generation + 1;
      holder := None;
      if lastOk {
        SendAgain(r, answer.value.value);
      } else {
        requests := requests[r := Over];
      }
    }

    /** A dropped future releases the lock and leaves `generation` and `last_ok` alone. */
    method Drop(r: nat)
      requires Enabled(View(), Cancel(r))
      modifies this`requests, this`holder, this`aborted
      ensures View() == Next(old(View()), Cancel(r))
    {
      if requests[r].Refreshing? {
        holder := None;
        aborted := aborted + [requests[r].seen];
      }
      requests := requests - {r};
    }
  }
}
