/**
 What becomes of a request after its 401, told from the events alone: whether a refresh has finished since the
 request was sent, how the last one ended, and which JWT is stored.
 */
module RefreshOutcomes {
  import opened Wrappers
  import opened RefreshGate

  /** The refreshes that have finished. */
  function Finished(events: seq<Event>): nat {
    if events == [] then 0
    else
      var rest, e := events[..|events| - 1], events[|events| - 1];
      Finished(rest) + if e.RefreshEnds? && Enabled(Run(Start, rest), e) then 1 else 0
  }

  /** Whether the last of them brought a JWT. */
  function LastBroughtOne(events: seq<Event>): bool {
    if events == [] then false
    else
      var rest, e := events[..|events| - 1], events[|events| - 1];
      if e.RefreshEnds? && Enabled(Run(Start, rest), e) then e.answer.Some? && e.answer.value.Some?
      else LastBroughtOne(rest)
  }

  /** What the Keychain holds: the last that was written to it. */
  function Held(events: seq<Event>): Option<Jwt> {
    if events == [] then None
    else
      var rest, e := events[..|events| - 1], events[|events| - 1];
      if e.StoredChanges? then e.now
      else if e.RefreshStores? && Enabled(Run(Start, rest), e) then Some(e.token)
      else Held(rest)
  }

  /** With the event numbered `i` request `r` was sent with `jwt`. */
  ghost predicate SentAt(events: seq<Event>, r: nat, jwt: Jwt, i: nat) {
    i < |events| && events[i] == Send(jwt) && Run(Start, events[..i]).nextRequest == r
  }

  /** A refresh has finished between the event numbered `i` and now. */
  predicate FinishedSince(events: seq<Event>, i: nat)
    requires i <= |events|
  {
    Finished(events) != Finished(events[..i])
  }

  // -------- The state holds what the events tell

  lemma {:induction false} StateTells(events: seq<Event>)
    ensures var st := Run(Start, events);
      st.generation == Finished(events) && st.lastOk == LastBroughtOne(events) && st.stored == Held(events)
    decreases |events|
  {
    if events != [] {
      var rest, e := events[..|events| - 1], events[|events| - 1];
      StateTells(rest);
      if Enabled(Run(Start, rest), e) {
        StepTells(Run(Start, rest), e);
      }
    }
  }

  lemma StepTells(st: State, e: Event)
    requires Enabled(st, e)
    ensures var st' := Next(st, e);
      && st'.generation == st.generation + (if e.RefreshEnds? then 1 else 0)
      && st'.lastOk == (if e.RefreshEnds? then e.answer.Some? && e.answer.value.Some? else st.lastOk)
      && st'.stored == (if e.StoredChanges? then e.now else if e.RefreshStores? then Some(e.token) else st.stored)
  {
  }

  /** The JWT a request was sent with, and the generation it had read, while it has not been sent again. */
  function FirstSend(p: Phase): Option<(Jwt, nat)> {
    match p
    case Sent(jwt, seen) => Some((jwt, seen))
    case Unauthorized(jwt, seen) => Some((jwt, seen))
    case Cleared(jwt, seen) => Some((jwt, seen))
    case Refreshing(jwt, seen) => Some((jwt, seen))
    case _ => None
  }

  lemma SendsMoveOn(st: State, e: Event, r: nat)
    requires Enabled(st, e) && r in Next(st, e).requests && FirstSend(Next(st, e).requests[r]).Some?
    ensures var first := FirstSend(Next(st, e).requests[r]);
      || (r in st.requests && first == FirstSend(st.requests[r]))
      || (r == st.nextRequest && e.Send? && first == Some((e.jwt, st.generation)))
  {
  }

  lemma {:induction false} WasSent(events: seq<Event>, r: nat) returns (i: nat)
    requires r in Run(Start, events).requests && FirstSend(Run(Start, events).requests[r]).Some?
    ensures var (jwt, seen) := FirstSend(Run(Start, events).requests[r]).value;
      SentAt(events, r, jwt, i) && seen == Finished(events[..i])
    decreases |events|
  {
    var rest, e := events[..|events| - 1], events[|events| - 1];
    var st := Run(Start, rest);
    if Enabled(st, e) {
      SendsMoveOn(st, e, r);
    }
    if r in st.requests && FirstSend(st.requests[r]) == FirstSend(Run(Start, events).requests[r]) {
      i := WasSent(rest, r);
      assert rest[..i] == events[..i];
    } else {
      i := |rest|;
      assert events[..i] == rest;
      StateTells(rest);
    }
  }

  /** Requests are numbered as they are sent, so a request was sent once. */
  lemma {:induction false} NumbersGrow(events: seq<Event>, i: nat)
    requires i <= |events|
    ensures Run(Start, events[..i]).nextRequest <= Run(Start, events).nextRequest
    decreases |events|
  {
    if i < |events| {
      var rest := events[..|events| - 1];
      NumbersGrow(rest, i);
      assert rest[..i] == events[..i];
    } else {
      assert events[..i] == events;
    }
  }

  lemma SentOnce(events: seq<Event>, r: nat, i: nat, j: nat, p: Jwt, q: Jwt)
    requires SentAt(events, r, p, i) && SentAt(events, r, q, j)
    ensures i == j && p == q
  {
    var a, b := if i < j then i else j, if i < j then j else i;
    if a < b {
      assert events[..a + 1][..a] == events[..a] && events[..b][..a + 1] == events[..a + 1];
      NumbersGrow(events[..b], a + 1);
    }
  }

  // -------- The theorems

  /**
   A request with a 401 that takes the lock when a refresh has finished since it was sent shares its outcome: it is
   sent again exactly if the last refresh to finish brought a JWT and one is stored, and then with the one stored
   now. Otherwise it is over and was sent once; it starts no refresh.
   */
  lemma OutcomeIsShared(events: seq<Event>, r: nat, jwt: Jwt, i: nat)
    requires Enabled(Run(Start, events), Lock(r)) && SentAt(events, r, jwt, i) && FinishedSince(events, i)
    ensures var after := Run(Start, events + [Lock(r)]);
      && r in after.requests && r in after.sends && after.holder == None
      && (if LastBroughtOne(events) && Held(events).Some?
          then after.requests[r] == Resent(Held(events).value) && after.sends[r] == 2
          else after.requests[r] == Over && after.sends[r] == 1)
  {
    var j := WasSent(events, r);
    SentOnce(events, r, i, j, jwt, Run(Start, events).requests[r].jwt);
    StateTells(events);
    RunKeeps(events);
    RunStep(Start, events, Lock(r));
  }

  /**
   When none has finished since, it is sent again exactly if another JWT than its own is stored, with that one;
   otherwise it keeps the lock, to refresh.
   */
  lemma StoredJwtIsTried(events: seq<Event>, r: nat, jwt: Jwt, i: nat)
    requires Enabled(Run(Start, events), Lock(r)) && SentAt(events, r, jwt, i) && !FinishedSince(events, i)
    ensures var after := Run(Start, events + [Lock(r)]);
      && r in after.requests && r in after.sends
      && (if Held(events).Some? && Held(events).value != jwt
          then after.requests[r] == Resent(Held(events).value) && after.sends[r] == 2 && after.holder == None
          else after.requests[r] == Cleared(jwt, Finished(events)) && after.sends[r] == 1 && after.holder == Some(r))
  {
    var j := WasSent(events, r);
    SentOnce(events, r, i, j, jwt, Run(Start, events).requests[r].jwt);
    StateTells(events);
    RunKeeps(events);
    RunStep(Start, events, Lock(r));
  }

  /** The request that refreshed is sent again exactly if its refresh brought a JWT, with that one. */
  lemma OwnRefreshIsTried(events: seq<Event>, r: nat, answer: Option<Option<Jwt>>)
    requires Enabled(Run(Start, events), RefreshEnds(r, answer))
    ensures var after := Run(Start, events + [RefreshEnds(r, answer)]);
      && r in after.requests && r in after.sends && after.holder == None
      && (if answer.Some? && answer.value.Some?
          then after.requests[r] == Resent(answer.value.value) && after.sends[r] == 2
          else after.requests[r] == Over && after.sends[r] == 1)
      && Finished(events + [RefreshEnds(r, answer)]) == Finished(events) + 1
  {
    RunKeeps(events);
    RunStep(Start, events, RefreshEnds(r, answer));
    assert (events + [RefreshEnds(r, answer)])[..|events|] == events;
  }

  /** Nothing but these three sends a request again, and none of them does it twice. */
  lemma ResentByThese(events: seq<Event>, e: Event, r: nat)
    requires r in Run(Start, events).sends && Run(Start, events + [e]).sends != Run(Start, events).sends
    requires r in Run(Start, events + [e]).sends && Run(Start, events + [e]).sends[r] != Run(Start, events).sends[r]
    ensures e == Lock(r) || (e.RefreshEnds? && e.request == r)
    ensures Run(Start, events).sends[r] == 1 && Run(Start, events + [e]).sends[r] == 2
  {
    RunKeeps(events);
    RunKeeps(events + [e]);
    RunStep(Start, events, e);
  }

  /** Two requests got a 401 for `stale`; the first has refreshed and stored `newer`. */
  function Refreshed(stale: Jwt, newer: Jwt): State {
    State(1, true, None, Some(newer), map[0 := Resent(newer), 1 := Unauthorized(stale, 0)], 2, map[0 := 2, 1 := 1],
          [Attempt(0, 0, true)], [Started(0, 0, stale)], [], [])
  }

  lemma RefreshedReached(stale: Jwt, newer: Jwt) returns (events: seq<Event>)
    ensures Run(Start, events) == Refreshed(stale, newer) && |events| > 1 && events[1] == Send(stale)
    ensures events[0] == Send(stale)
  {
    events := Extended([], Send(stale));
    events := Extended(events, Send(stale));
    events := Extended(events, Reply(0, true));
    events := Extended(events, Reply(1, true));
    events := Extended(events, Lock(0));
    events := Extended(events, Starts(0));
    events := Extended(events, RefreshStores(0, newer));
    events := Extended(events, RefreshEnds(0, Some(Some(newer))));
    assert Run(Start, events).requests == Refreshed(stale, newer).requests;
  }

  lemma Extended(events: seq<Event>, e: Event) returns (more: seq<Event>)
    ensures more == events + [e]
    ensures Run(Start, more) == var before := Run(Start, events); if Enabled(before, e) then Next(before, e) else before
  {
    RunStep(Start, events, e);
    more := events + [e];
  }

  /** It happens: the second is sent again with the JWT that the first has brought, and starts no refresh. */
  lemma SecondSharesTheFirst(stale: Jwt, newer: Jwt) returns (events: seq<Event>)
    ensures SentAt(events, 1, stale, 1) && FinishedSince(events, 1)
    ensures Run(Start, events).requests == map[0 := Resent(newer), 1 := Unauthorized(stale, 0)]
    ensures Run(Start, events + [Lock(1)]).requests == map[0 := Resent(newer), 1 := Resent(newer)]
    ensures Run(Start, events + [Lock(1)]).started == [Started(0, 0, stale)]
  {
    events := RefreshedReached(stale, newer);
    StateTells(events);
    assert events[..1] == [Send(stale)] && [Send(stale)][..0] == [];
    RunStep(Start, [], Send(stale));
    assert [] + [Send(stale)] == [Send(stale)];
    StateTells(events[..1]);
    RunStep(Start, events, Lock(1));
  }
}
