/**
 What the loops of apps/desktop/src/sessions_ws.rs tell the webview about their sockets, measured by what
 happened to these sockets.
 */
module SessionsStatus {
  import opened Wrappers
  import opened SessionsWs

  /** The socket of loop `g` has come and is not known to be lost. */
  function SocketUp(events: seq<Event>, g: nat): bool {
    if events == [] then false
    else
      var rest, e := events[..|events| - 1], events[|events| - 1];
      if !Enabled(Run(Start, rest), e) then SocketUp(rest, g)
      else match e
        case ConnectEnds(h, ok) => if h == g then ok else SocketUp(rest, g)
        case WriteEnds(h, ok) => if h == g && !ok then false else SocketUp(rest, g)
        case SocketEnds(h) => if h == g then false else SocketUp(rest, g)
        case _ => SocketUp(rest, g)
  }

  lemma SocketUpOne(events: seq<Event>, e: Event, g: nat)
    requires Enabled(Run(Start, events), e)
    ensures SocketUp(events + [e], g) == match e
      case ConnectEnds(h, ok) => if h == g then ok else SocketUp(events, g)
      case WriteEnds(h, ok) => if h == g && !ok then false else SocketUp(events, g)
      case SocketEnds(h) => if h == g then false else SocketUp(events, g)
      case _ => SocketUp(events, g)
  {
    assert (events + [e])[..|events|] == events;
  }

  lemma SocketUpStays(events: seq<Event>, e: Event, g: nat)
    requires !Enabled(Run(Start, events), e)
    ensures SocketUp(events + [e], g) == SocketUp(events, g) && Run(Start, events + [e]) == Run(Start, events)
  {
    assert (events + [e])[..|events|] == events;
  }

  /** What the webview was told last by loop `g`. */
  function Told(said: seq<Status>, g: nat): Option<string> {
    if said == [] then None
    else if said[|said| - 1].generation == g then Some(said[|said| - 1].text)
    else Told(said[..|said| - 1], g)
  }

  lemma ToldOne(said: seq<Status>, s: Status, g: nat)
    ensures Told(said + [s], g) == if s.generation == g then Some(s.text) else Told(said, g)
  {
    assert (said + [s])[..|said|] == said;
  }

  lemma {:induction false} NothingTold(said: seq<Status>, g: nat)
    requires forall s :: s in said ==> s.generation < g
    ensures Told(said, g) == None
  {
    if said != [] {
      assert said[|said| - 1] in said;
      NothingTold(said[..|said| - 1], g);
    }
  }

  // -------- What every run keeps

  /** The loop is behind an upgrade that came. */
  predicate HasSocket(p: Phase) {
    p == Cleared(true) || p == Open || p == Draining || p == Writing || p == Waiting
  }

  /** What a current loop has told by the time it is in this phase. */
  predicate Fits(p: Phase, told: Option<string>) {
    match p
    case Connecting => told != Some("open")
    case Cleared(opens) => opens ==> told != Some("open")
    case Sleeping => told == Some("reconnecting")
    case _ => told == Some("open")
  }

  ghost predicate LoopFits(st: State, up: bool, g: nat) {
    g in st.loops ==> (HasSocket(st.loops[g]) <==> up) && (IsCurrent(st, g) ==> Fits(st.loops[g], Told(st.said, g)))
  }

  /** A loop speaks only under a generation handed out. */
  ghost predicate SaidBefore(st: State) {
    && (forall s :: s in st.said ==> s.generation < st.next)
    && (forall g :: g in st.loops ==> g < st.next)
  }

  lemma OwnFits(st: State, e: Event, up: bool, up': bool, g: nat)
    requires LoopFits(st, up, g) && Enabled(st, e) && !OfWindow(e) && e.loop == g && g in Next(st, e).loops
    requires up' == match e
      case ConnectEnds(_, ok) => ok
      case WriteEnds(_, ok) => ok && up
      case SocketEnds(_) => false
      case _ => up
    ensures LoopFits(Next(st, e), up', g)
  {
    if e.Says? {
      ToldOne(st.said, Status(g, if st.loops[g].opens then "open" else "reconnecting"), g);
    }
  }

  lemma OtherFits(st: State, e: Event, up: bool, g: nat)
    requires LoopFits(st, up, g) && Enabled(st, e) && !OfWindow(e) && e.loop != g
    ensures LoopFits(Next(st, e), up, g)
  {
    if e.Says? {
      ToldOne(st.said, Status(e.loop, if st.loops[e.loop].opens then "open" else "reconnecting"), g);
    }
  }

  lemma WindowFits(st: State, e: Event, up: bool, g: nat)
    requires LoopFits(st, up, g) && SaidBefore(st) && Enabled(st, e) && OfWindow(e)
    requires g >= st.next ==> !up
    requires g < st.next && !IsCurrent(st, g) ==> !IsCurrent(Next(st, e), g)
    ensures LoopFits(Next(st, e), up, g)
  {
    if e.Connect? && g == st.next {
      NothingTold(st.said, g);
    }
  }

  lemma NeverAgain(st: State, e: Event, g: nat)
    requires Enabled(st, e) && g < st.next && !IsCurrent(st, g)
    ensures !IsCurrent(Next(st, e), g)
  {
  }

  lemma SaidKept(st: State, e: Event)
    requires SaidBefore(st) && Enabled(st, e)
    ensures SaidBefore(Next(st, e))
  {
    if OfWindow(e) {
      assert Next(st, e).said == st.said && Next(st, e).next >= st.next;
    } else {
      assert Next(st, e).loops.Keys <= st.loops.Keys && Next(st, e).next == st.next;
    }
  }

  ghost predicate AllFit(events: seq<Event>) {
    var st := Run(Start, events);
    SaidBefore(st) && forall g: nat :: LoopFits(st, SocketUp(events, g), g) && (g >= st.next ==> !SocketUp(events, g))
  }

  lemma FitsOne(events: seq<Event>, e: Event, g: nat)
    requires AllFit(events) && Enabled(Run(Start, events), e)
    ensures var st' := Next(Run(Start, events), e);
      LoopFits(st', SocketUp(events + [e], g), g) && (g >= st'.next ==> !SocketUp(events + [e], g))
  {
    var st := Run(Start, events);
    SocketUpOne(events, e, g);
    assert LoopFits(st, SocketUp(events, g), g);
    if OfWindow(e) {
      if g < st.next && !IsCurrent(st, g) { NeverAgain(st, e, g); }
      WindowFits(st, e, SocketUp(events, g), g);
    } else if e.loop == g {
      if g in Next(st, e).loops { OwnFits(st, e, SocketUp(events, g), SocketUp(events + [e], g), g); }
    } else {
      OtherFits(st, e, SocketUp(events, g), g);
    }
  }

  lemma {:induction false} RunFits(events: seq<Event>)
    ensures AllFit(events)
    decreases |events|
  {
    if events != [] {
      var rest, e := events[..|events| - 1], events[|events| - 1];
      assert events == rest + [e];
      RunFits(rest);
      if Enabled(Run(Start, rest), e) {
        SaidKept(Run(Start, rest), e);
        forall g: nat
          ensures LoopFits(Run(Start, events), SocketUp(events, g), g)
          ensures g >= Run(Start, events).next ==> !SocketUp(events, g)
        {
          FitsOne(rest, e, g);
        }
      } else {
        forall g: nat ensures SocketUp(events, g) == SocketUp(rest, g) && Run(Start, events) == Run(Start, rest) {
          SocketUpStays(rest, e, g);
        }
      }
    }
  }

  // -------- The theorems

  /** A loop says `open` for a socket that has come, and `reconnecting` for one that failed or was lost. */
  lemma SaysWhatHappened(events: seq<Event>, g: nat)
    requires Enabled(Run(Start, events), Says(g))
    ensures Run(Start, events + [Says(g)]).said ==
            Run(Start, events).said + [Status(g, if SocketUp(events, g) then "open" else "reconnecting")]
  {
    RunFits(events);
    assert LoopFits(Run(Start, events), SocketUp(events, g), g);
    assert (events + [Says(g)])[..|events|] == events;
  }

  ghost predicate Lives(st: State) {
    Registry(st) && (st.current.Some? ==> st.current.value in st.loops)
  }

  lemma LivesOn(st: State, e: Event)
    requires Lives(st) && Enabled(st, e) && !OfWindow(e) && st.current.Some?
    ensures Next(st, e).current == st.current && st.current.value in Next(st, e).loops
  {
    assert !st.outboxes[st.current.value].closed;
  }

  lemma WindowLives(st: State, e: Event)
    requires Lives(st) && Enabled(st, e) && OfWindow(e)
    ensures Next(st, e).current.Some? ==> Next(st, e).current.value in Next(st, e).loops
  {
  }

  lemma {:induction false} RunLives(events: seq<Event>)
    ensures Lives(Run(Start, events))
    decreases |events|
  {
    if events != [] {
      var rest, e := events[..|events| - 1], events[|events| - 1];
      RunLives(rest);
      if Enabled(Run(Start, rest), e) {
        EventLives(Run(Start, rest), e);
      }
    }
  }

  lemma EventLives(st: State, e: Event)
    requires Lives(st) && Enabled(st, e)
    ensures Lives(Next(st, e))
  {
    RegistryKept(st, e);
    if OfWindow(e) {
      WindowLives(st, e);
    } else if st.current.Some? {
      LivesOn(st, e);
    } else {
      NobodyComes(st, e);
    }
  }

  lemma NobodyComes(st: State, e: Event)
    requires Enabled(st, e) && !OfWindow(e) && st.current.None?
    ensures Next(st, e).current.None?
  {
  }

  /** The loop can take a step of its own. */
  predicate CanGoOn(st: State, g: nat) {
    || Enabled(st, ConnectEnds(g, true)) || Enabled(st, CheckClosed(g)) || Enabled(st, Drain(g))
    || Enabled(st, WriteEnds(g, true)) || Enabled(st, Wake(g)) || Enabled(st, AsksAgain(g))
    || Enabled(st, Says(g)) || Enabled(st, SleepEnds(g))
  }

  /** The loop of the current connection never gives up: whatever fails, it is there, and can go on. */
  lemma CurrentLoopLives(events: seq<Event>, g: nat)
    requires IsCurrent(Run(Start, events), g)
    ensures g in Run(Start, events).loops && CanGoOn(Run(Start, events), g)
  {
    RunLives(events);
    var st := Run(Start, events);
    match st.loops[g]
    case Cleared(opens) => assert In(st, g, Cleared(opens));
    case phase => assert In(st, g, phase);
  }

  /**
   The current loop has told the truth before it goes on: while it drains, writes or waits on a socket the
   webview was last told `open`, and while it sleeps before the next attempt `reconnecting`.
   */
  lemma WebviewKnows(events: seq<Event>, g: nat)
    requires var st := Run(Start, events); IsCurrent(st, g) && g in st.loops
    ensures var st := Run(Start, events);
      && (st.loops[g] in {Open, Draining, Writing, Waiting} ==> SocketUp(events, g) && Told(st.said, g) == Some("open"))
      && (st.loops[g] == Sleeping ==> !SocketUp(events, g) && Told(st.said, g) == Some("reconnecting"))
      && (st.loops[g] == Connecting ==> !SocketUp(events, g) && Told(st.said, g) != Some("open"))
  {
    RunFits(events);
    assert LoopFits(Run(Start, events), SocketUp(events, g), g);
  }
}
