/**
 Which frames apps/desktop/src/sessions_ws.rs accepts, told from the commands alone: every one sent while the
 window is connected, under its own request id; and what becomes of it.
 */
module SessionsFrames {
  import opened Wrappers
  import opened SessionsWs

  function Connected(events: seq<Event>): bool {
    if events == [] then false
    else
      match events[|events| - 1]
      case Connect => true
      case Disconnect => false
      case _ => Connected(events[..|events| - 1])
  }

  /** The frames sent while the window was connected. */
  function Accepted(events: seq<Event>): nat {
    if events == [] then 0
    else
      var rest, e := events[..|events| - 1], events[|events| - 1];
      Accepted(rest) + if e.Push? && Connected(rest) then 1 else 0
  }

  /** How many of them were sent before the last disconnect. */
  function Settled(events: seq<Event>): nat {
    if events == [] then 0
    else
      var rest, e := events[..|events| - 1], events[|events| - 1];
      if e.Disconnect? && Connected(rest) then Accepted(rest) else Settled(rest)
  }

  /** The frame accepted as the `ticket`-th was sent with this id. */
  ghost predicate SentAs(events: seq<Event>, ticket: nat, id: Option<string>) {
    exists i: nat :: SentAt(events, ticket, id, i)
  }

  ghost predicate SentAt(events: seq<Event>, ticket: nat, id: Option<string>, i: nat) {
    i < |events| && events[i] == Push(id) && Connected(events[..i]) && Accepted(events[..i]) == ticket
  }

  lemma SentStays(events: seq<Event>, e: Event, ticket: nat, id: Option<string>)
    requires SentAs(events, ticket, id)
    ensures SentAs(events + [e], ticket, id)
  {
    var i: nat :| SentAt(events, ticket, id, i);
    assert (events + [e])[..i] == events[..i];
    assert SentAt(events + [e], ticket, id, i);
  }

  // -------- What every run keeps

  ghost predicate Counts(events: seq<Event>) {
    var st := Run(Start, events);
    && st.current.Some? == Connected(events)
    && st.tickets == Accepted(events) && Settled(events) <= Accepted(events)
    && (forall t :: t in st.taken <==> Settled(events) <= t < Accepted(events))
  }

  lemma LoopCounts(st: State, e: Event)
    requires Enabled(st, e) && !OfWindow(e)
    ensures var st' := Next(st, e); st'.current == st.current && st'.tickets == st.tickets && st'.taken == st.taken
  {
  }

  lemma {:induction false} AlwaysCounts(events: seq<Event>)
    ensures Counts(events)
    decreases |events|
  {
    if events != [] {
      var rest, e := events[..|events| - 1], events[|events| - 1];
      AlwaysCounts(rest);
      RunKeeps(rest);
      if Enabled(Run(Start, rest), e) && !OfWindow(e) {
        LoopCounts(Run(Start, rest), e);
      }
    }
  }

  /** The queued frames carry the ids they were sent with. */
  ghost predicate AsSent(st: State, events: seq<Event>) {
    forall g, i :: g in st.outboxes && 0 <= i < |st.outboxes[g].queue| ==>
      SentAs(events, st.outboxes[g].queue[i].ticket, st.outboxes[g].queue[i].id)
  }

  ghost predicate Queued(st: State, entry: Entry) {
    exists h, j :: h in st.outboxes && 0 <= j < |st.outboxes[h].queue| && st.outboxes[h].queue[j] == entry
  }

  /** Where an entry of a queue comes from. */
  lemma EntryMoves(st: State, e: Event, g: nat, i: nat)
    requires Registry(st) && Enabled(st, e) && g in Next(st, e).outboxes && i < |Next(st, e).outboxes[g].queue|
    ensures var entry := Next(st, e).outboxes[g].queue[i];
      Queued(st, entry) || (e.Push? && st.current.Some? && entry == Entry(st.tickets, e.id))
  {
    match e
    case Cancel(id) => CancelMoves(st, id, g, i);
    case Drain(h) => DrainMoves(st, h, g, i);
    case Connect => ConnectMoves(st, g, i);
    case _ =>
  }

  lemma CancelMoves(st: State, id: string, g: nat, i: nat)
    requires g in CancelStep(st, id).outboxes && i < |CancelStep(st, id).outboxes[g].queue|
    ensures Queued(st, CancelStep(st, id).outboxes[g].queue[i])
  {
    var entry := CancelStep(st, id).outboxes[g].queue[i];
    RetainMembers(st.outboxes[g].queue, id, entry);
    assert entry in st.outboxes[g].queue;
  }

  lemma DrainMoves(st: State, h: nat, g: nat, i: nat)
    requires h in st.outboxes && g in DrainStep(st, h).outboxes && i < |DrainStep(st, h).outboxes[g].queue|
    ensures Queued(st, DrainStep(st, h).outboxes[g].queue[i])
  {
    var entry := DrainStep(st, h).outboxes[g].queue[i];
    if g == h && st.outboxes[g].queue != [] {
      assert st.outboxes[g].queue[i + 1] == entry;
    } else {
      assert st.outboxes[g].queue[i] == entry;
    }
  }

  lemma ConnectMoves(st: State, g: nat, i: nat)
    requires Registry(st) && g in ConnectStep(st).outboxes && i < |ConnectStep(st).outboxes[g].queue|
    ensures Queued(st, ConnectStep(st).outboxes[g].queue[i])
  {
    var entry := ConnectStep(st).outboxes[g].queue[i];
    if g == st.next {
      assert st.outboxes[st.current.value].queue[i] == entry;
    } else {
      assert st.outboxes[g].queue[i] == entry;
    }
  }

  lemma {:induction false} AlwaysAsSent(events: seq<Event>)
    ensures AsSent(Run(Start, events), events)
    decreases |events|
  {
    if events != [] {
      var rest, e := events[..|events| - 1], events[|events| - 1];
      assert events == rest + [e];
      var st, st' := Run(Start, rest), Run(Start, events);
      AlwaysAsSent(rest);
      AlwaysCounts(rest);
      RunKeeps(rest);
      forall g, i | g in st'.outboxes && 0 <= i < |st'.outboxes[g].queue|
        ensures SentAs(events, st'.outboxes[g].queue[i].ticket, st'.outboxes[g].queue[i].id)
      {
        EntryAsSent(rest, e, g, i);
      }
    }
  }

  lemma EntryAsSent(rest: seq<Event>, e: Event, g: nat, i: nat)
    requires AsSent(Run(Start, rest), rest) && Counts(rest) && Registry(Run(Start, rest))
    requires g in Run(Start, rest + [e]).outboxes && i < |Run(Start, rest + [e]).outboxes[g].queue|
    ensures var entry := Run(Start, rest + [e]).outboxes[g].queue[i]; SentAs(rest + [e], entry.ticket, entry.id)
  {
    assert (rest + [e])[..|rest|] == rest;
    var st, entry := Run(Start, rest), Run(Start, rest + [e]).outboxes[g].queue[i];
    if Enabled(st, e) {
      EntryMoves(st, e, g, i);
    }
    if Queued(st, entry) {
      SentStays(rest, e, entry.ticket, entry.id);
    } else {
      assert SentAt(rest + [e], entry.ticket, entry.id, |rest|);
    }
  }

  // -------- The theorems

  /**
   Every frame sent while the window was connected, since it last disconnected, is in exactly one place: written
   or being written, cancelled, or queued for the current connection. Frames sent while it was not are refused.
   */
  lemma AcceptedIsSomewhere(events: seq<Event>, t: nat)
    ensures t < Settled(events) || t >= Accepted(events) ==> t !in Queue(Run(Start, events)) && t !in Run(Start, events).popped
    ensures Settled(events) <= t < Accepted(events) ==>
              var st := Run(Start, events);
              && (t in st.popped || t in st.cancelled || t in Queue(st))
              && !(t in st.popped && t in st.cancelled) && !(t in st.popped && t in Queue(st))
              && !(t in st.cancelled && t in Queue(st))
  {
    AlwaysCounts(events);
    RunKeeps(events);
    var st := Run(Start, events);
    if Settled(events) <= t < Accepted(events) {
      EachFrameInOnePlace(events, t);
    }
    assert t in st.popped + Queue(st) <==> t in st.popped || t in Queue(st);
  }

  /** A frame waits in the queue under the id it was sent with, so a cancel finds it by that. */
  lemma QueuedAsSent(events: seq<Event>, g: nat, i: nat)
    requires g in Run(Start, events).outboxes && i < |Run(Start, events).outboxes[g].queue|
    ensures var entry := Run(Start, events).outboxes[g].queue[i]; SentAs(events, entry.ticket, entry.id)
  {
    AlwaysAsSent(events);
  }
}
