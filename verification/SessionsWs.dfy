/**
 The desktop end of the live channel, apps/desktop/src/sessions_ws.rs: the registry entry of one
 window, the outboxes of all its connections, and the background loops, which run on beside each
 other until they notice that they are retired. Commands and loops are threads: every event is one
 critical section, one wait that ends, or one step between a check and what follows from it. A run is any
 sequence of events. Other windows share only the counter
 that hands out generations.
 */
module SessionsWs {
  import opened Wrappers
  import opened Backoff

  /** A queued frame: its place among all frames ever accepted, and its request id if it has one. */
  datatype Entry = Entry(ticket: nat, id: Option<string>)

  datatype Outbox = Outbox(queue: seq<Entry>, closed: bool)

  /**
   Where a loop stands; a loop that has returned is gone from `loops`. `Doubting`: the socket is lost and
   the loop was still current; it will ask once more. `Cleared`: it was current when it asked, and is about
   to say `open` or `reconnecting`.
   */
  datatype Phase = Connecting | Cleared(opens: bool) | Open | Draining | Writing | Waiting | Doubting | Sleeping

  datatype Pop = Pop(generation: nat, ticket: nat)

  datatype Status = Status(generation: nat, text: string)

  /**
   `current` is the registry entry, by generation; outboxes and loops carry the generation they were
   made with; `backoff` is the delay each loop holds. The rest is history: frames accepted so far, those accepted and those popped since the
   last disconnect, all cancelled ones, everything ever popped, the generations closed by a
   disconnect, what the loops told the webview, and how many failures of each loop have followed one another
   since it last connected.
   */
  datatype State = State(
    current: Option<nat>, next: nat, outboxes: map<nat, Outbox>, loops: map<nat, Phase>,
    tickets: nat, taken: set<nat>, popped: seq<nat>, cancelled: set<nat>, out: seq<Pop>,
    dropped: set<nat>, said: seq<Status>,
    backoff: map<nat, nat>, fails: map<nat, nat>)

  datatype Event =
    | Connect
    | Disconnect
    | OtherWindowConnects
    | Push(id: Option<string>)
    | Cancel(request: string)
    | ConnectEnds(loop: nat, ok: bool)
    | CheckClosed(loop: nat)
    | Drain(loop: nat)
    | WriteEnds(loop: nat, ok: bool)
    | Wake(loop: nat)
    | SocketEnds(loop: nat)
    | AsksAgain(loop: nat)
    | Says(loop: nat)
    | SleepEnds(loop: nat)

  const Start := State(None, 0, map[], map[], 0, {}, [], {}, [], {}, [], map[], map[])

  function Tickets(q: seq<Entry>): seq<nat> {
    seq(|q|, i requires 0 <= i < |q| => q[i].ticket)
  }

  /** `queue.retain`: everything but the frames with that request id. */
  function Retain(q: seq<Entry>, id: string): seq<Entry> {
    if q == [] then []
    else Retain(q[..|q| - 1], id) + if q[|q| - 1].id == Some(id) then [] else [q[|q| - 1]]
  }

  function Hit(q: seq<Entry>, id: string): set<nat> {
    set i | 0 <= i < |q| && q[i].id == Some(id) :: q[i].ticket
  }

  // -------- The commands

  /** `register`: the old outbox is closed and emptied in one step, and the new one starts with its frames. */
  function ConnectStep(st: State): State {
    var g := st.next;
    var had := st.current.Some? && st.current.value in st.outboxes;
    var carried := if had then st.outboxes[st.current.value].queue else [];
    var retired := if had then st.outboxes[st.current.value := Outbox([], true)] else st.outboxes;
    st.(current := Some(g), next := g + 1, outboxes := retired[g := Outbox(carried, false)],
        loops := st.loops[g := Connecting], backoff := st.backoff[g := MIN_BACKOFF_MS], fails := st.fails[g := 0])
  }

  /** `remove`: the outbox is closed but keeps its frames. */
  function DisconnectStep(st: State): State {
    if st.current.Some? && st.current.value in st.outboxes then
      var g := st.current.value;
      st.(current := None, outboxes := st.outboxes[g := st.outboxes[g].(closed := true)],
          taken := {}, popped := [], dropped := st.dropped + {g})
    else st
  }

  function PushStep(st: State, id: Option<string>): State {
    if st.current.Some? && st.current.value in st.outboxes then
      var g := st.current.value;
      var box := st.outboxes[g];
      st.(outboxes := st.outboxes[g := box.(queue := box.queue + [Entry(st.tickets, id)])],
          tickets := st.tickets + 1, taken := st.taken + {st.tickets})
    else st
  }

  function CancelStep(st: State, id: string): State {
    if st.current.Some? && st.current.value in st.outboxes then
      var g := st.current.value;
      var box := st.outboxes[g];
      st.(outboxes := st.outboxes[g := box.(queue := Retain(box.queue, id))],
          cancelled := st.cancelled + Hit(box.queue, id))
    else st
  }

  // -------- The loop of one generation

  predicate IsCurrent(st: State, g: nat) {
    st.current == Some(g)
  }

  function Gone(st: State, g: nat): State {
    st.(loops := st.loops - {g})
  }

  function GoOn(st: State, g: nat, phase: Phase): State {
    st.(loops := st.loops[g := phase])
  }

  /** The socket is lost: a retired loop returns, the current one goes on to tell. */
  function Lost(st: State, g: nat): State
    requires g in st.fails
  {
    if IsCurrent(st, g) then GoOn(Failed(st, g), g, Doubting) else Gone(st, g)
  }

  function Failed(st: State, g: nat): State
    requires g in st.fails
  {
    st.(fails := st.fails[g := st.fails[g] + 1])
  }

  /** The check of `emit_if_current`, before `reconnecting`; in any case the loop then backs off. */
  function Asks(st: State, g: nat): State {
    GoOn(st, g, if IsCurrent(st, g) then Cleared(false) else Sleeping)
  }

  /** The upgrade is over, and the loop asks whether it is still current. */
  function ConnectEndsStep(st: State, g: nat, ok: bool): State
    requires g in st.fails
  {
    if !ok then Asks(Failed(st, g), g)
    else if IsCurrent(st, g) then
      GoOn(st.(backoff := st.backoff[g := MIN_BACKOFF_MS], fails := st.fails[g := 0]), g, Cleared(true))
    else Gone(st, g)
  }

  /** The delay is over; for the next time it is doubled. */
  function SleepEndsStep(st: State, g: nat): State
    requires g in st.backoff
  {
    if IsCurrent(st, g) then GoOn(st.(backoff := st.backoff[g := NextBackoffMs(st.backoff[g])]), g, Connecting)
    else Gone(st, g)
  }

  function SaysStep(st: State, g: nat): State
    requires g in st.loops && st.loops[g].Cleared?
  {
    var opens := st.loops[g].opens;
    GoOn(st.(said := st.said + [Status(g, if opens then "open" else "reconnecting")]), g, if opens then Open else Sleeping)
  }

  /** One turn of the drain loop: the front frame is popped and its write begins, or there is none. */
  function DrainStep(st: State, g: nat): State
    requires g in st.outboxes
  {
    var box := st.outboxes[g];
    if box.queue == [] then GoOn(st, g, Waiting)
    else
      var ticket := box.queue[0].ticket;
      GoOn(st.(outboxes := st.outboxes[g := box.(queue := box.queue[1..])],
               out := st.out + [Pop(g, ticket)],
               popped := if IsCurrent(st, g) then st.popped + [ticket] else st.popped), g, Writing)
  }

  predicate In(st: State, g: nat, phase: Phase) {
    g in st.loops && st.loops[g] == phase && g in st.outboxes && g in st.backoff && g in st.fails
  }

  predicate Enabled(st: State, e: Event) {
    match e
    case ConnectEnds(g, _) => In(st, g, Connecting)
    case CheckClosed(g) => In(st, g, Open)
    case Drain(g) => In(st, g, Draining)
    case WriteEnds(g, _) => In(st, g, Writing)
    case Wake(g) => In(st, g, Waiting)
    case SocketEnds(g) => In(st, g, Waiting)
    case AsksAgain(g) => In(st, g, Doubting)
    case Says(g) => In(st, g, Cleared(true)) || In(st, g, Cleared(false))
    case SleepEnds(g) => In(st, g, Sleeping)
    case _ => true
  }

  function Next(st: State, e: Event): State
    requires Enabled(st, e)
  {
    match e
    case Connect => ConnectStep(st)
    case Disconnect => DisconnectStep(st)
    case OtherWindowConnects => st.(next := st.next + 1)
    case Push(id) => PushStep(st, id)
    case Cancel(id) => CancelStep(st, id)
    case ConnectEnds(g, ok) => ConnectEndsStep(st, g, ok)
    case CheckClosed(g) => if st.outboxes[g].closed then Gone(st, g) else GoOn(st, g, Draining)
    case Drain(g) => DrainStep(st, g)
    case WriteEnds(g, ok) => if ok then GoOn(st, g, Draining) else Lost(st, g)
    case Wake(g) => GoOn(st, g, Open)
    case SocketEnds(g) => Lost(st, g)
    case AsksAgain(g) => Asks(st, g)
    case Says(g) => SaysStep(st, g)
    case SleepEnds(g) => SleepEndsStep(st, g)
  }

  function Run(st: State, events: seq<Event>): State
    decreases |events|
  {
    if events == [] then st
    else
      var before := Run(st, events[..|events| - 1]);
      var e := events[|events| - 1];
      if Enabled(before, e) then Next(before, e) else before
  }

  // -------- What every run keeps

  ghost predicate Increasing(s: seq<nat>) {
    forall i, j :: 0 <= i < j < |s| ==> s[i] < s[j]
  }

  ghost predicate Registry(st: State) {
    && (forall g :: g in st.outboxes ==> g < st.next)
    && (forall g :: g in st.loops ==> g in st.outboxes && g in st.backoff && g in st.fails)
    && (st.current.Some? ==> st.current.value in st.outboxes && st.current.value !in st.dropped)
    && (forall g :: g in st.outboxes ==> st.outboxes[g].closed == (st.current != Some(g)))
    && (forall g :: g in st.outboxes && st.current != Some(g) && g !in st.dropped ==> st.outboxes[g].queue == [])
    && (forall g :: g in st.dropped ==> g < st.next)
  }

  /** Every ticket is in one place: some queue, popped, or cancelled. */
  ghost predicate QueuesPlaced(st: State) {
    && (forall g :: g in st.outboxes ==> Increasing(Tickets(st.outboxes[g].queue)))
    && (forall g, i :: g in st.outboxes && 0 <= i < |st.outboxes[g].queue| ==>
          var t := st.outboxes[g].queue[i].ticket;
          t < st.tickets && t !in st.cancelled && forall p :: p in st.out ==> p.ticket != t)
    && (forall g, h, i, j :: g in st.outboxes && h in st.outboxes && g != h
          && 0 <= i < |st.outboxes[g].queue| && 0 <= j < |st.outboxes[h].queue|
          ==> st.outboxes[g].queue[i].ticket != st.outboxes[h].queue[j].ticket)
  }

  ghost predicate OthersPlaced(st: State) {
    && (forall i, j :: 0 <= i < j < |st.out| ==> st.out[i].ticket != st.out[j].ticket)
    && (forall p :: p in st.out ==> p.ticket < st.tickets && p.ticket !in st.cancelled)
    && (forall t :: t in st.cancelled ==> t < st.tickets)
  }

  ghost predicate Placed(st: State) {
    QueuesPlaced(st) && OthersPlaced(st)
  }

  function Queue(st: State): seq<nat> {
    if st.current.Some? && st.current.value in st.outboxes then Tickets(st.outboxes[st.current.value].queue) else []
  }

  /** Since the last disconnect: popped first, then queued, in the order of the pushes; nothing missing. */
  ghost predicate InOrder(st: State) {
    && Increasing(st.popped + Queue(st))
    && (forall t :: t in st.taken ==> t < st.tickets)
    && (forall t :: t in st.popped + Queue(st) ==> t in st.taken)
    && (forall t :: t in st.taken ==> t in st.popped || t in st.cancelled || t in Queue(st))
    && (forall t :: t in st.popped ==> exists p :: p in st.out && p.ticket == t)
  }

  ghost predicate Inv(st: State) {
    Registry(st) && Placed(st) && InOrder(st)
  }

  lemma TicketsAppend(q: seq<Entry>, e: Entry)
    ensures Tickets(q + [e]) == Tickets(q) + [e.ticket]
  {
  }

  lemma IncreasingAppend(s: seq<nat>, t: nat)
    requires Increasing(s) && forall x :: x in s ==> x < t
    ensures Increasing(s + [t])
  {
    forall i | 0 <= i < |s|
      ensures s[i] < t
    {
      assert s[i] in s;
    }
  }

  lemma IncreasingConcat(a: seq<nat>, b: seq<nat>)
    ensures Increasing(a + b) <==>
              Increasing(a) && Increasing(b) && forall x, y :: x in a && y in b ==> x < y
  {
    var c := a + b;
    if Increasing(c) {
      forall x, y | x in a && y in b
        ensures x < y
      {
        var i :| 0 <= i < |a| && a[i] == x;
        var j :| 0 <= j < |b| && b[j] == y;
        assert c[i] < c[|a| + j];
      }
      assert forall i :: 0 <= i < |a| ==> a[i] == c[i];
      assert forall j :: 0 <= j < |b| ==> b[j] == c[|a| + j];
    } else if Increasing(a) && Increasing(b) {
      var i, j :| 0 <= i < j < |c| && c[i] >= c[j];
      assert i < |a| <= j;
      assert a[i] in a && b[j - |a|] in b;
    }
  }

  lemma {:induction false} RetainMembers(q: seq<Entry>, id: string, e: Entry)
    ensures e in Retain(q, id) <==> e in q && e.id != Some(id)
  {
    if q != [] {
      RetainMembers(q[..|q| - 1], id, e);
      assert q == q[..|q| - 1] + [q[|q| - 1]];
    }
  }

  lemma {:induction false} RetainKeeps(q: seq<Entry>, id: string)
    requires Increasing(Tickets(q))
    ensures Increasing(Tickets(Retain(q, id)))
  {
    if q != [] {
      var r, e := q[..|q| - 1], q[|q| - 1];
      TicketsAppend(r, e);
      assert q == r + [e] && e.ticket in [e.ticket];
      IncreasingConcat(Tickets(r), [e.ticket]);
      RetainKeeps(r, id);
      forall t | t in Tickets(Retain(r, id))
        ensures t < e.ticket
      {
        var f := TicketOf(Retain(r, id), t);
        RetainMembers(r, id, f);
        MemberTicket(r, f);
      }
      if e.id != Some(id) {
        TicketsAppend(Retain(r, id), e);
        IncreasingAppend(Tickets(Retain(r, id)), e.ticket);
      } else {
        assert Retain(q, id) == Retain(r, id);
      }
    }
  }

  lemma TicketOf(q: seq<Entry>, t: nat) returns (e: Entry)
    requires t in Tickets(q)
    ensures e in q && e.ticket == t
  {
    var i :| 0 <= i < |q| && Tickets(q)[i] == t;
    e := q[i];
  }

  lemma MemberTicket(q: seq<Entry>, e: Entry)
    requires e in q
    ensures e.ticket in Tickets(q)
  {
    var i :| 0 <= i < |q| && q[i] == e;
    assert Tickets(q)[i] == e.ticket;
  }

  predicate OfWindow(e: Event) {
    e.Connect? || e.Disconnect? || e.OtherWindowConnects? || e.Push? || e.Cancel?
  }

  lemma WindowKeepsRegistry(st: State, e: Event)
    requires Registry(st) && Enabled(st, e) && OfWindow(e)
    ensures Registry(Next(st, e))
  {
  }

  lemma LoopKeepsRegistry(st: State, e: Event)
    requires Registry(st) && Enabled(st, e) && !OfWindow(e)
    ensures Registry(Next(st, e))
  {
    var st' := Next(st, e);
    assert st'.current == st.current && st'.next == st.next && st'.dropped == st.dropped;
    assert st'.loops.Keys <= st.loops.Keys && st.backoff.Keys <= st'.backoff.Keys && st.fails.Keys <= st'.fails.Keys;
    if e.Drain? {
      DrainKeepsRegistry(st, e.loop);
    } else {
      assert st'.outboxes == st.outboxes;
    }
  }

  lemma DrainKeepsRegistry(st: State, g: nat)
    requires Registry(st) && In(st, g, Draining)
    ensures Registry(DrainStep(st, g))
  {
  }

  lemma RegistryKept(st: State, e: Event)
    requires Registry(st) && Enabled(st, e)
    ensures Registry(Next(st, e))
  {
    if OfWindow(e) { WindowKeepsRegistry(st, e); } else { LoopKeepsRegistry(st, e); }
  }

  lemma ConnectPlaced(st: State)
    requires Registry(st) && Placed(st)
    ensures Placed(ConnectStep(st))
  {
  }

  lemma ConnectInOrder(st: State)
    requires Registry(st) && InOrder(st)
    ensures InOrder(ConnectStep(st))
  {
    assert Queue(ConnectStep(st)) == Queue(st);
  }

  lemma DisconnectKept(st: State)
    requires Registry(st) && Placed(st) && InOrder(st)
    ensures Placed(DisconnectStep(st)) && InOrder(DisconnectStep(st))
  {
  }

  lemma PushPlaced(st: State, id: Option<string>)
    requires Registry(st) && Placed(st)
    ensures Placed(PushStep(st, id))
  {
    if st.current.Some? {
      var q := st.outboxes[st.current.value].queue;
      TicketsAppend(q, Entry(st.tickets, id));
      forall t | t in Tickets(q)
        ensures t < st.tickets
      {
        var e := TicketOf(q, t);
      }
      IncreasingAppend(Tickets(q), st.tickets);
    }
  }

  lemma PushInOrder(st: State, id: Option<string>)
    requires Registry(st) && InOrder(st)
    ensures InOrder(PushStep(st, id))
  {
    if st.current.Some? {
      var q := st.outboxes[st.current.value].queue;
      TicketsAppend(q, Entry(st.tickets, id));
      assert Queue(PushStep(st, id)) == Queue(st) + [st.tickets];
      assert st.popped + Queue(PushStep(st, id)) == (st.popped + Queue(st)) + [st.tickets];
      IncreasingAppend(st.popped + Queue(st), st.tickets);
    }
  }

  lemma CancelQueue(q: seq<Entry>, id: string, t: nat)
    requires Increasing(Tickets(q))
    ensures t in Tickets(Retain(q, id)) ==> t in Tickets(q) && t !in Hit(q, id)
    ensures t in Tickets(q) ==> t in Tickets(Retain(q, id)) || t in Hit(q, id)
    ensures t in Hit(q, id) ==> t in Tickets(q)
  {
    if t in Tickets(Retain(q, id)) {
      var e := TicketOf(Retain(q, id), t);
      RetainMembers(q, id, e);
      MemberTicket(q, e);
      var i :| 0 <= i < |q| && q[i] == e;
      forall j | 0 <= j < |q| && q[j].ticket == t
        ensures j == i
      {
        assert Tickets(q)[i] == Tickets(q)[j];
      }
    }
    if t in Tickets(q) {
      var e := TicketOf(q, t);
      RetainMembers(q, id, e);
      if e.id != Some(id) {
        MemberTicket(Retain(q, id), e);
      }
    }
    if t in Hit(q, id) {
      var i :| 0 <= i < |q| && q[i].id == Some(id) && q[i].ticket == t;
      MemberTicket(q, q[i]);
    }
  }

  lemma CancelPlaced(st: State, id: string)
    requires Registry(st) && Placed(st)
    ensures Placed(CancelStep(st, id))
  {
    if st.current.Some? {
      var q := st.outboxes[st.current.value].queue;
      RetainKeeps(q, id);
      forall i | 0 <= i < |Retain(q, id)|
        ensures Retain(q, id)[i] in q && Retain(q, id)[i].ticket !in Hit(q, id)
      {
        RetainMembers(q, id, Retain(q, id)[i]);
        MemberTicket(Retain(q, id), Retain(q, id)[i]);
        CancelQueue(q, id, Retain(q, id)[i].ticket);
      }
    }
  }

  lemma CancelInOrder(st: State, id: string)
    requires Registry(st) && Placed(st) && InOrder(st)
    ensures InOrder(CancelStep(st, id))
  {
    if st.current.Some? {
      var q := st.outboxes[st.current.value].queue;
      RetainKeeps(q, id);
      forall t: nat
        ensures t in Tickets(Retain(q, id)) ==> t in Tickets(q)
        ensures t in Tickets(q) ==> t in Tickets(Retain(q, id)) || t in Hit(q, id)
      {
        CancelQueue(q, id, t);
      }
      IncreasingConcat(st.popped, Tickets(q));
      IncreasingConcat(st.popped, Tickets(Retain(q, id)));
    }
  }

  lemma DrainPlaced(st: State, g: nat)
    requires Registry(st) && Placed(st) && In(st, g, Draining)
    ensures Placed(DrainStep(st, g))
  {
    DrainQueues(st, g);
    DrainOthers(st, g);
  }

  lemma DrainQueues(st: State, g: nat)
    requires Placed(st) && In(st, g, Draining)
    ensures QueuesPlaced(DrainStep(st, g))
  {
    var q, st' := st.outboxes[g].queue, DrainStep(st, g);
    if q != [] {
      FirstIsLeast(q);
      assert st'.outboxes == st.outboxes[g := st.outboxes[g].(queue := q[1..])];
      assert st'.out == st.out + [Pop(g, q[0].ticket)];
    }
  }

  lemma DrainOthers(st: State, g: nat)
    requires Placed(st) && In(st, g, Draining)
    ensures OthersPlaced(DrainStep(st, g))
  {
  }

  lemma FirstIsLeast(q: seq<Entry>)
    requires q != [] && Increasing(Tickets(q))
    ensures Increasing(Tickets(q[1..]))
    ensures forall i :: 0 <= i < |q[1..]| ==> q[0].ticket < q[1..][i].ticket
  {
    assert Tickets(q) == [q[0].ticket] + Tickets(q[1..]);
    IncreasingConcat([q[0].ticket], Tickets(q[1..]));
    forall i | 0 <= i < |q[1..]|
      ensures q[0].ticket < q[1..][i].ticket
    {
      assert Tickets(q)[0] < Tickets(q)[i + 1];
    }
  }

  lemma DrainInOrder(st: State, g: nat)
    requires Registry(st) && InOrder(st) && In(st, g, Draining)
    ensures InOrder(DrainStep(st, g))
  {
    var q := st.outboxes[g].queue;
    if q != [] && IsCurrent(st, g) {
      assert Tickets(q) == [q[0].ticket] + Tickets(q[1..]);
      assert st.popped + Tickets(q) == st.popped + [q[0].ticket] + Tickets(q[1..]);
      assert Pop(g, q[0].ticket) in st.out + [Pop(g, q[0].ticket)];
    }
  }

  /** `Inv` kept folded, so that a proof can hand it on without opening it. */
  ghost predicate Sound(st: State) {
    forall x {:trigger Inv(x)} :: x == st ==> Inv(x)
  }

  lemma NextKeeps(st: State, e: Event)
    requires Sound(st) && Enabled(st, e)
    ensures Sound(Next(st, e))
  {
    assert Inv(st);
    RegistryKept(st, e);
    match e {
      case Connect =>
        ConnectPlaced(st);
        ConnectInOrder(st);
      case Disconnect => DisconnectKept(st);
      case Push(id) =>
        PushPlaced(st, id);
        PushInOrder(st, id);
      case Cancel(id) =>
        CancelPlaced(st, id);
        CancelInOrder(st, id);
      case Drain(g) =>
        DrainPlaced(st, g);
        DrainInOrder(st, g);
      case _ => QueuesUntouched(st, e);
    }
    assert Inv(Next(st, e));
  }

  lemma SameQueues(st: State, st': State)
    requires Placed(st) && InOrder(st)
    requires st' == st.(next := st'.next, loops := st'.loops, said := st'.said, backoff := st'.backoff, fails := st'.fails)
    ensures Placed(st') && InOrder(st')
  {
  }

  lemma QueuesUntouched(st: State, e: Event)
    requires Placed(st) && InOrder(st) && Enabled(st, e)
    requires e.OtherWindowConnects? || (!OfWindow(e) && !e.Drain?)
    ensures Placed(Next(st, e)) && InOrder(Next(st, e))
  {
    var st' := Next(st, e);
    assert st' == st.(next := st'.next, loops := st'.loops, said := st'.said, backoff := st'.backoff, fails := st'.fails);
    SameQueues(st, st');
  }

  lemma {:induction false} RunSound(events: seq<Event>)
    ensures Sound(Run(Start, events))
    decreases |events|
  {
    if events == [] {
      assert Inv(Start);
    } else {
      RunSound(events[..|events| - 1]);
      var st, e := Run(Start, events[..|events| - 1]), events[|events| - 1];
      if Enabled(st, e) {
        NextKeeps(st, e);
      }
    }
  }

  lemma RunKeeps(events: seq<Event>)
    ensures Inv(Run(Start, events))
  {
    RunSound(events);
    assert Inv(Run(Start, events));
  }

  lemma {:induction false} RunOnSound(st: State, events: seq<Event>)
    requires Sound(st)
    ensures Sound(Run(st, events))
    decreases |events|
  {
    if events != [] {
      RunOnSound(st, events[..|events| - 1]);
      var before, e := Run(st, events[..|events| - 1]), events[|events| - 1];
      if Enabled(before, e) {
        NextKeeps(before, e);
      }
    }
  }

  // -------- The theorems

  /**
   Between two disconnects every accepted frame is in exactly one place: popped, cancelled or queued in
   the outbox of the current connection, however often the window reconnected.
   */
  lemma EachFrameInOnePlace(events: seq<Event>, t: nat)
    requires t in Run(Start, events).taken
    ensures var st := Run(Start, events);
      && (t in st.popped || t in st.cancelled || t in Queue(st))
      && !(t in st.popped && t in st.cancelled) && !(t in st.popped && t in Queue(st))
      && !(t in st.cancelled && t in Queue(st))
  {
    RunKeeps(events);
    var st := Run(Start, events);
    IncreasingConcat(st.popped, Queue(st));
    if t in Queue(st) {
      var e := TicketOf(st.outboxes[st.current.value].queue, t);
    }
  }

  /** Frames are popped in the order they were pushed, and no frame ever twice. */
  lemma PoppedOnceInOrder(events: seq<Event>)
    ensures var st := Run(Start, events);
      && Increasing(st.popped)
      && forall i, j :: 0 <= i < j < |st.out| ==> st.out[i].ticket != st.out[j].ticket
  {
    RunKeeps(events);
    var st := Run(Start, events);
    IncreasingConcat(st.popped, Queue(st));
  }

  lemma {:induction false} HistoryGrows(st: State, events: seq<Event>)
    ensures var st' := Run(st, events);
      && st.out <= st'.out && st.said <= st'.said && st.cancelled <= st'.cancelled
    decreases |events|
  {
    if events != [] {
      var before, e := Run(st, events[..|events| - 1]), events[|events| - 1];
      HistoryGrows(st, events[..|events| - 1]);
      if Enabled(before, e) {
        EventGrows(before, e);
      }
    }
  }

  lemma EventGrows(st: State, e: Event)
    requires Enabled(st, e)
    ensures var st' := Next(st, e);
      && st.out <= st'.out && st.said <= st'.said && st.cancelled <= st'.cancelled
  {
  }

  /** A frame cancelled while it was queued is never popped afterwards. */
  lemma CancelledStaysUnsent(st: State, events: seq<Event>, t: nat)
    requires Sound(st) && t in st.cancelled
    ensures forall p :: p in Run(st, events).out ==> p.ticket != t
  {
    RunOnSound(st, events);
    HistoryGrows(st, events);
    assert Inv(Run(st, events));
  }

  /** `cancel` reaches every queued frame with that request id, and nothing else. */
  lemma CancelTakesOut(st: State, id: string, e: Entry)
    requires Sound(st) && st.current.Some? && st.current.value in st.outboxes
    ensures var g := st.current.value; var st' := Next(st, Cancel(id));
      e in st'.outboxes[g].queue <==> e in st.outboxes[g].queue && e.id != Some(id)
  {
    RetainMembers(st.outboxes[st.current.value].queue, id, e);
  }

  ghost predicate Retired(st: State, g: nat) {
    g < st.next && !IsCurrent(st, g)
  }

  /** How often loop `g` is heard among these statuses. */
  function Heard(said: seq<Status>, g: nat): nat {
    if said == [] then 0
    else Heard(said[..|said| - 1], g) + if said[|said| - 1].generation == g then 1 else 0
  }

  /** 1 for a loop that is between its check and the status it leads to. */
  function Owed(st: State, g: nat): nat {
    if In(st, g, Cleared(true)) || In(st, g, Cleared(false)) then 1 else 0
  }

  lemma RetiredStaysSo(st: State, e: Event, g: nat)
    requires Retired(st, g) && Enabled(st, e)
    ensures Retired(Next(st, e), g)
    ensures !e.Says? ==> Next(st, e).said == st.said
  {
  }

  lemma WindowOwes(st: State, e: Event, g: nat)
    requires Registry(st) && Retired(st, g) && Enabled(st, e) && OfWindow(e)
    ensures Owed(Next(st, e), g) == Owed(st, g)
  {
  }

  lemma LoopOwes(st: State, e: Event, g: nat)
    requires Registry(st) && Retired(st, g) && Enabled(st, e) && !OfWindow(e) && !e.Says?
    ensures Owed(Next(st, e), g) == Owed(st, g)
  {
    if e.loop != g {
      assert g in Next(st, e).loops <==> g in st.loops;
    }
  }

  lemma RetiredOwes(st: State, e: Event, g: nat)
    requires Registry(st) && Retired(st, g) && Enabled(st, e) && !e.Says?
    ensures Owed(Next(st, e), g) == Owed(st, g)
  {
    if OfWindow(e) { WindowOwes(st, e, g); } else { LoopOwes(st, e, g); }
  }

  lemma RetiredStep(st: State, e: Event, g: nat)
    requires Registry(st) && Retired(st, g) && Enabled(st, e)
    ensures var st' := Next(st, e);
      Retired(st', g) && Heard(st'.said, g) + Owed(st', g) == Heard(st.said, g) + Owed(st, g)
  {
    RetiredStaysSo(st, e, g);
    if e.Says? {
      assert Next(st, e).said[..|st.said|] == st.said;
    } else {
      RetiredOwes(st, e, g);
    }
  }

  /**
   A loop that was superseded or disconnected never becomes current again. What it still says is the one
   status it was cleared for at that moment, if any.
   */
  lemma {:induction false} RetiredSaysWhatItOwes(st: State, events: seq<Event>, g: nat)
    requires Sound(st) && Retired(st, g)
    ensures var st' := Run(st, events);
      Retired(st', g) && Heard(st'.said, g) + Owed(st', g) == Heard(st.said, g) + Owed(st, g)
    decreases |events|
  {
    if events != [] {
      var rest, e := events[..|events| - 1], events[|events| - 1];
      RetiredSaysWhatItOwes(st, rest, g);
      RunOnSound(st, rest);
      assert Inv(Run(st, rest));
      if Enabled(Run(st, rest), e) {
        RetiredStep(Run(st, rest), e, g);
      }
    }
  }

  /** In this continuation loop `g` is heard again. */
  ghost predicate HeardIn(st: State, events: seq<Event>, g: nat) {
    Heard(Run(st, events).said, g) > Heard(st.said, g)
  }

  /**
   So a retired loop is heard once more at most, and it can be exactly if it was caught between its check
   and its status.
   */
  lemma RetiredIsHeardIff(st: State, g: nat)
    requires Sound(st) && Retired(st, g)
    ensures (exists events :: HeardIn(st, events, g)) <==> Owed(st, g) == 1
    ensures forall events :: HeardIn(st, events, g) ==> Heard(Run(st, events).said, g) == Heard(st.said, g) + 1
  {
    forall events
      ensures HeardIn(st, events, g) ==> Owed(st, g) == 1 && Heard(Run(st, events).said, g) == Heard(st.said, g) + 1
    {
      RetiredSaysWhatItOwes(st, events, g);
    }
    if Owed(st, g) == 1 {
      var events := [Says(g)];
      assert events[..0] == [] && Run(st, []) == st;
      assert SaysStep(st, g).said[..|st.said|] == st.said;
      assert HeardIn(st, events, g);
    }
  }

  /** The first loop has asked behind its upgrade, and is about to say `open`. */
  const Upgraded := State(Some(0), 1, map[0 := Outbox([], false)], map[0 := Cleared(true)], 0, {}, [], {}, [], {}, [],
                          map[0 := MIN_BACKOFF_MS], map[0 := 0])

  lemma UpgradedReached()
    ensures Run(Start, [Connect, ConnectEnds(0, true)]) == Upgraded
  {
    var events := [Connect, ConnectEnds(0, true)];
    assert events[..1] == [Connect] && [Connect][..0] == [];
    var st := Run(Start, [Connect]);
    assert st == ConnectStep(Start) && st.loops == map[0 := Connecting];
  }

  /** It happens: disconnected between the check and the emit, the loop says `open` for a socket nobody wants. */
  lemma LateOpen()
    ensures var st := Run(Start, [Connect, ConnectEnds(0, true), Disconnect]);
      Retired(st, 0) && st.said == [] && Run(st, [Says(0)]).said == [Status(0, "open")]
  {
    UpgradedReached();
    var events := [Connect, ConnectEnds(0, true), Disconnect];
    assert events[..2] == [Connect, ConnectEnds(0, true)];
    var st := Run(Start, events);
    assert [Says(0)][..0] == [] && Run(st, []) == st;
  }

  /** At every moment at most one generation is current, and its loop is the newest of the window. */
  lemma CurrentIsNewest(events: seq<Event>, g: nat)
    requires g in Run(Start, events).outboxes && Run(Start, events).current.Some?
    ensures g <= Run(Start, events).current.value
  {
    NewestSound(events);
  }

  ghost predicate Newest(st: State) {
    && (forall g :: g in st.outboxes ==> g < st.next)
    && (st.current.Some? ==> forall g :: g in st.outboxes ==> g <= st.current.value)
  }

  lemma NewestKept(st: State, e: Event)
    requires Newest(st) && Enabled(st, e)
    ensures Newest(Next(st, e))
  {
    if !e.Connect? && !e.Disconnect? && !e.OtherWindowConnects? {
      assert Next(st, e).outboxes.Keys <= st.outboxes.Keys;
    }
  }

  lemma {:induction false} NewestSound(events: seq<Event>)
    ensures Newest(Run(Start, events))
    decreases |events|
  {
    if events != [] {
      NewestSound(events[..|events| - 1]);
      var before, e := Run(Start, events[..|events| - 1]), events[|events| - 1];
      if Enabled(before, e) {
        NewestKept(before, e);
      }
    }
  }

  // -------- The delay

  /** The loop has failed, and has not slept since. */
  predicate Failing(p: Phase) {
    p == Doubting || p == Cleared(false) || p == Sleeping
  }

  /** After k failures in a row the delay is doubled k - 1 times, and once more when it has been slept out. */
  predicate Due(p: Phase, fails: nat, delay: nat) {
    if Failing(p) then fails >= 1 && delay == Wait(fails - 1)
    else if p == Connecting then delay == Wait(fails)
    else fails == 0 && delay == MIN_BACKOFF_MS
  }

  ghost predicate DelayOf(st: State, g: nat) {
    g in st.loops ==> g in st.backoff && g in st.fails && Due(st.loops[g], st.fails[g], st.backoff[g])
  }

  ghost predicate Delays(st: State) {
    forall g :: DelayOf(st, g)
  }

  lemma OwnDelay(st: State, e: Event, g: nat)
    requires DelayOf(st, g) && Enabled(st, e) && !OfWindow(e) && e.loop == g
    ensures DelayOf(Next(st, e), g)
  {
    FirstWait();
    if e.SleepEnds? {
      NextWait(st.fails[g] - 1);
    }
  }

  lemma OtherDelay(st: State, e: Event, g: nat)
    requires DelayOf(st, g) && Enabled(st, e) && !OfWindow(e) && e.loop != g
    ensures DelayOf(Next(st, e), g)
  {
  }

  lemma WindowDelay(st: State, e: Event, g: nat)
    requires DelayOf(st, g) && Enabled(st, e) && OfWindow(e)
    ensures DelayOf(Next(st, e), g)
  {
    FirstWait();
  }

  lemma DelaysKept(st: State, e: Event)
    requires Delays(st) && Enabled(st, e)
    ensures Delays(Next(st, e))
  {
    forall g ensures DelayOf(Next(st, e), g) {
      if OfWindow(e) {
        WindowDelay(st, e, g);
      } else if e.loop == g {
        OwnDelay(st, e, g);
      } else {
        OtherDelay(st, e, g);
      }
    }
  }

  lemma {:induction false} RunDelays(events: seq<Event>)
    ensures Delays(Run(Start, events))
    decreases |events|
  {
    if events != [] {
      RunDelays(events[..|events| - 1]);
      var before, e := Run(Start, events[..|events| - 1]), events[|events| - 1];
      if Enabled(before, e) {
        DelaysKept(before, e);
      }
    }
  }

  /** Over every run: a loop that sleeps after k failures in a row sleeps min(1000 * 2^(k - 1), 30000) ms. */
  lemma SleepsFor(events: seq<Event>, g: nat)
    requires g in Run(Start, events).loops && Run(Start, events).loops[g] == Sleeping
    ensures var st := Run(Start, events);
      && g in st.fails && g in st.backoff && st.fails[g] >= 1
      && var d := MIN_BACKOFF_MS * Pow2(st.fails[g] - 1);
         st.backoff[g] == if d < MAX_BACKOFF_MS then d else MAX_BACKOFF_MS
  {
    RunDelays(events);
    assert DelayOf(Run(Start, events), g);
  }

  /** The failures are those since the loop last connected: a loop with an open socket has none behind it. */
  lemma ConnectedStartsOver(events: seq<Event>, g: nat)
    requires g in Run(Start, events).loops && Run(Start, events).loops[g] == Open
    ensures var st := Run(Start, events);
      g in st.fails && st.fails[g] == 0 && g in st.backoff && st.backoff[g] == MIN_BACKOFF_MS
  {
    RunDelays(events);
    assert DelayOf(Run(Start, events), g);
  }

  /** A retired generation from which nothing can come any more. */
  ghost predicate Dry(st: State, g: nat) {
    && Retired(st, g)
    && (g in st.outboxes ==>
          && st.outboxes[g].closed
          && (st.outboxes[g].queue == [] || !(g in st.loops && (st.loops[g] == Draining || st.loops[g] == Writing))))
  }

  lemma DryForLoops(st: State, e: Event, g: nat)
    requires Registry(st) && Dry(st, g) && Enabled(st, e) && !OfWindow(e) && !e.Drain?
    ensures Dry(Next(st, e), g) && Next(st, e).out == st.out
  {
    assert Next(st, e).outboxes == st.outboxes;
  }

  lemma DryForWindow(st: State, e: Event, g: nat)
    requires Registry(st) && Dry(st, g) && Enabled(st, e) && OfWindow(e)
    ensures Dry(Next(st, e), g) && Next(st, e).out == st.out
  {
  }

  lemma DryForDrain(st: State, h: nat, g: nat)
    requires Registry(st) && Dry(st, g) && In(st, h, Draining)
    ensures Dry(DrainStep(st, h), g)
    ensures DrainStep(st, h).out == st.out || (h != g && exists t :: DrainStep(st, h).out == st.out + [Pop(h, t)])
  {
  }

  lemma DryStays(st: State, e: Event, g: nat)
    requires Sound(st) && Dry(st, g) && Enabled(st, e)
    ensures Dry(Next(st, e), g)
    ensures st.out <= Next(st, e).out
    ensures forall i :: |st.out| <= i < |Next(st, e).out| ==> Next(st, e).out[i].generation != g
  {
    assert Registry(st) by { assert Inv(st); }
    if OfWindow(e) {
      DryForWindow(st, e, g);
    } else if e.Drain? {
      DryForDrain(st, e.loop, g);
    } else {
      DryForLoops(st, e, g);
    }
  }

  lemma {:induction false} DryPopsNothing(st: State, events: seq<Event>, g: nat)
    requires Sound(st) && Dry(st, g)
    ensures var st' := Run(st, events);
      && Dry(st', g) && st.out <= st'.out
      && forall i :: |st.out| <= i < |st'.out| ==> st'.out[i].generation != g
    decreases |events|
  {
    if events != [] {
      var before, e := Run(st, events[..|events| - 1]), events[|events| - 1];
      DryPopsNothing(st, events[..|events| - 1], g);
      RunOnSound(st, events[..|events| - 1]);
      if Enabled(before, e) {
        DryStays(before, e, g);
      }
    }
  }

  /** `register` closes and empties the outbox in one step: the loop it retires pops nothing more. */
  lemma ReplacedLoopPopsNothing(st: State, events: seq<Event>)
    requires Sound(st) && st.current.Some?
    ensures var st1 := Next(st, Connect); var st' := Run(st1, events);
      forall i :: |st1.out| <= i < |st'.out| ==> st'.out[i].generation != st.current.value
  {
    assert Inv(st);
    NextKeeps(st, Connect);
    assert Dry(Next(st, Connect), st.current.value);
    DryPopsNothing(Next(st, Connect), events, st.current.value);
  }

  /** In this continuation the loop of generation `g` pops a frame. */
  ghost predicate PopsIn(st: State, events: seq<Event>, g: nat) {
    exists i :: |st.out| <= i < |Run(st, events).out| && Run(st, events).out[i].generation == g
  }

  lemma PopsAfterClose(st: State, g: nat)
    requires (In(st, g, Draining) || In(st, g, Writing)) && st.outboxes[g].queue != []
    ensures exists events :: PopsIn(st, events, g)
  {
    var written := if In(st, g, Writing) then [WriteEnds(g, true)] else [];
    assert Run(st, []) == st && (In(st, g, Writing) ==> written[..0] == []);
    var st' := Run(st, written);
    assert In(st', g, Draining) && st'.outboxes == st.outboxes && st'.out == st.out;
    assert (written + [Drain(g)])[..|written|] == written;
    assert Run(st, written + [Drain(g)]).out[|st.out|].generation == g;
    assert PopsIn(st, written + [Drain(g)], g);
  }

  /**
   `close` leaves the frames in place, so a disconnect can be followed by pops of the old loop: exactly
   when it is caught in the middle of draining a queue that is not empty.
   */
  lemma DisconnectedLoopPopsIff(st: State)
    requires Sound(st) && st.current.Some?
    ensures var g := st.current.value; var st1 := Next(st, Disconnect);
      (exists events :: PopsIn(st1, events, g)) <==>
        (In(st, g, Draining) || In(st, g, Writing)) && st.outboxes[g].queue != []
  {
    assert Inv(st);
    var g, st1 := st.current.value, Next(st, Disconnect);
    NextKeeps(st, Disconnect);
    if (In(st, g, Draining) || In(st, g, Writing)) && st.outboxes[g].queue != [] {
      PopsAfterClose(st1, g);
    } else {
      forall events
        ensures !PopsIn(st1, events, g)
      {
        DryPopsNothing(st1, events, g);
      }
    }
  }
}
