/**
 The broadcasts of a session together with `sendInitialSnapshot` of apps/server/api/sessions-ws.ts: a new
 connection is added first, and the rows it may see are read and sent to it while broadcasts go on. The
 client takes a row from either without looking which is newer.
 */
module Snapshots {
  import opened Wrappers
  import opened Broadcast
  import BroadcastVerdicts

  /** Where the snapshot of a connection is: the rows are being read, or were read with this version of ours. */
  datatype Shot = Asked | Got(row: Option<nat>)

  datatype Sent = Update(frame: Frame) | Snapshot(to: nat, version: nat)

  /** `wire` is all that was sent, broadcasts and snapshots. */
  datatype Channel = Channel(st: State, shots: map<nat, Shot>, wire: seq<Sent>)

  datatype Step = Broadcasting(event: Event) | SnapshotAnswers(conn: nat, held: bool, failed: bool) | SnapshotSends(conn: nat)

  const Opening := Channel(Start, map[], [])

  function To(s: Sent): nat {
    if s.Update? then s.frame.conn else s.to
  }

  function RowIn(s: Sent): nat {
    if s.Update? then s.frame.row else s.version
  }

  predicate CanStep(c: Channel, s: Step) {
    match s
    case Broadcasting(e) => Enabled(c.st, e)
    case SnapshotAnswers(k, _, _) => k in c.shots && c.shots[k] == Asked
    case SnapshotSends(k) => k in c.shots && c.shots[k].Got?
  }

  function Added(st: State, st': State): seq<Sent> {
    if |st'.log| > |st.log| then [Update(st'.log[|st'.log| - 1])] else []
  }

  function Take(c: Channel, s: Step): Channel
    requires CanStep(c, s)
  {
    match s
    case Broadcasting(e) =>
      var st' := Next(c.st, e);
      Channel(st', if e.Connect? then c.shots[c.st.nextConn := Asked] else c.shots, c.wire + Added(c.st, st'))
    case SnapshotAnswers(k, held, failed) =>
      if failed then c.(shots := c.shots - {k})
      else c.(shots := c.shots[k := Got(if held then Some(c.st.version) else None)])
    case SnapshotSends(k) =>
      var row := c.shots[k].row;
      c.(shots := c.shots - {k},
         wire := c.wire + if row.Some? && k in c.st.open then [Snapshot(k, row.value)] else [])
  }

  function Go(c: Channel, steps: seq<Step>): Channel
    decreases |steps|
  {
    if steps == [] then c
    else
      var before := Go(c, steps[..|steps| - 1]);
      var s := steps[|steps| - 1];
      if CanStep(before, s) then Take(before, s) else before
  }

  // -------- The broadcasts go on as without snapshots

  function Broadcasts(steps: seq<Step>): seq<Event> {
    if steps == [] then []
    else Broadcasts(steps[..|steps| - 1]) +
         match steps[|steps| - 1] case Broadcasting(e) => [e] case _ => []
  }

  lemma {:induction false} BroadcastsGoOn(steps: seq<Step>)
    ensures Go(Opening, steps).st == Run(Start, Broadcasts(steps))
  {
    if steps != [] {
      var rest, s := steps[..|steps| - 1], steps[|steps| - 1];
      BroadcastsGoOn(rest);
      if s.Broadcasting? {
        assert Broadcasts(steps)[..|Broadcasts(steps)| - 1] == Broadcasts(rest);
      } else {
        assert Broadcasts(steps) == Broadcasts(rest);
      }
    }
  }

  // -------- What one event of the broadcasts does to the log

  /** The last claim went to every connection there was. */
  predicate Settled(st: State) {
    st.claim.Some? && st.claim.value.event !in st.tasks && !st.claim.value.broken
  }

  /**
   A frame goes to a connection that is there; the row a claim answers is there when it claims; and a claim
   that settles has been everywhere.
   */
  ghost predicate Moves(st: State, st': State) {
    && st.version <= st'.version && st.nextConn <= st'.nextConn
    && (st'.log == st.log || (|st'.log| == |st.log| + 1 && st'.log[..|st.log|] == st.log
                              && st'.log[|st.log|].conn < st.nextConn))
    && (st'.claim.Some? ==> st'.claim.value.since <= st.version
                            || (st.claim.Some? && st'.claim.value.since == st.claim.value.since))
    && (Settled(st') ==> st'.claim.value.visited == st'.nextConn
                         || (Settled(st) && st'.claim == st.claim && st'.log == st.log))
  }

  lemma FireMoves(st: State, changed: bool)
    requires CountersInv(st) && TurnsInv(st) && Enabled(st, Fire(changed))
    ensures Moves(st, FireStep(st, changed))
  {
  }

  lemma ReadMoves(st: State, t: nat)
    requires Inv(st) && Enabled(st, ReadReturns(t))
    ensures Moves(st, ReadStep(st, t))
  {
  }

  lemma VerdictMoves(st: State, t: nat, verdict: Option<bool>)
    requires Inv(st) && Waits(st, t)
    ensures Moves(st, VerdictStep(st, t, verdict))
  {
    Claimant(st, t);
  }

  lemma AnswersMove(st: State, t: nat, found: bool, failed: bool)
    requires Enabled(st, DbAnswers(t, found, failed))
    ensures Moves(st, Next(st, DbAnswers(t, found, failed)))
  {
  }

  lemma EventMoves(st: State, e: Event)
    requires Inv(st) && Enabled(st, e)
    ensures Moves(st, Next(st, e))
  {
    match e
    case Fire(changed) => FireMoves(st, changed);
    case ReadReturns(t) => ReadMoves(st, t);
    case VerdictReturns(t, verdict) => VerdictMoves(st, t, verdict);
    case DbAnswers(t, found, failed) => AnswersMove(st, t, found, failed);
    case _ =>
  }

  // -------- What every run keeps

  function Frames(wire: seq<Sent>): seq<Frame> {
    if wire == [] then []
    else Frames(wire[..|wire| - 1]) + if wire[|wire| - 1].Update? then [wire[|wire| - 1].frame] else []
  }

  lemma FramesOne(wire: seq<Sent>, s: Sent)
    ensures Frames(wire + [s]) == Frames(wire) + if s.Update? then [s.frame] else []
  {
    assert (wire + [s])[..|wire|] == wire;
  }

  /** A connection gets one snapshot at most. */
  ghost predicate OneSnapshot(c: Channel) {
    && (forall i, j :: 0 <= i < j < |c.wire| && c.wire[i].Snapshot? && c.wire[j].Snapshot? ==> c.wire[i].to != c.wire[j].to)
    && (forall s :: s in c.wire && s.Snapshot? ==> s.to !in c.shots)
  }

  ghost predicate Known(c: Channel) {
    && (forall k :: k in c.shots ==> k < c.st.nextConn)
    && (forall s :: s in c.wire ==> To(s) < c.st.nextConn)
  }

  /** A connection the settled claim has not come to was made later, so its snapshot is newer than the event. */
  ghost predicate LaterIsNewer(c: Channel) {
    && (c.st.claim.Some? ==> c.st.claim.value.since <= c.st.version)
    && (Settled(c.st) ==>
          var claim := c.st.claim.value;
          && (forall k :: k in c.shots && k >= claim.visited && c.shots[k].Got? && c.shots[k].row.Some? ==>
                c.shots[k].row.value >= claim.since)
          && (forall s :: s in c.wire && To(s) >= claim.visited ==> s.Snapshot? && s.version >= claim.since))
  }

  ghost predicate ChannelInv(c: Channel) {
    && Sound(c.st) && Ready(c.st) && Frames(c.wire) == c.st.log
    && OneSnapshot(c) && Known(c) && LaterIsNewer(c)
  }

  lemma AddedIs(st: State, st': State, wire: seq<Sent>)
    requires Moves(st, st') && Frames(wire) == st.log
    ensures Frames(wire + Added(st, st')) == st'.log
    ensures st'.log == st.log ==> Added(st, st') == []
    ensures forall s :: s in Added(st, st') ==> s.Update? && To(s) < st.nextConn
  {
    if st'.log != st.log {
      FramesOne(wire, Update(st'.log[|st.log|]));
    } else {
      assert wire + Added(st, st') == wire;
    }
  }

  lemma BroadcastingKeeps(c: Channel, e: Event)
    requires ChannelInv(c) && Enabled(c.st, e)
    ensures ChannelInv(Take(c, Broadcasting(e)))
  {
    var st', c' := Next(c.st, e), Take(c, Broadcasting(e));
    assert Sound(st') && Ready(st') && Moves(c.st, st') && (e.Connect? ==> st'.nextConn == c.st.nextConn + 1) by {
      assert Inv(c.st);
      NextKeeps(c.st, e);
      ReadyKept(c.st, e);
      EventMoves(c.st, e);
    }
    AddedIs(c.st, st', c.wire);
    ChannelMoves(c, st', c');
  }

  lemma ChannelMoves(c: Channel, st': State, c': Channel)
    requires OneSnapshot(c) && Known(c) && LaterIsNewer(c) && Moves(c.st, st')
    requires forall s :: s in Added(c.st, st') ==> s.Update? && To(s) < c.st.nextConn
    requires st'.log == c.st.log ==> Added(c.st, st') == []
    requires c' == Channel(st', c'.shots, c.wire + Added(c.st, st'))
    requires c'.shots == c.shots || (st'.nextConn == c.st.nextConn + 1 && c'.shots == c.shots[c.st.nextConn := Asked])
    ensures OneSnapshot(c') && Known(c') && LaterIsNewer(c')
  {
    assert forall s :: s in c'.wire ==> s in c.wire || s in Added(c.st, st');
  }

  lemma AnswerKeepsChannel(c: Channel, k: nat, held: bool, failed: bool)
    requires ChannelInv(c) && CanStep(c, SnapshotAnswers(k, held, failed))
    ensures ChannelInv(Take(c, SnapshotAnswers(k, held, failed)))
  {
  }

  lemma SendKeepsChannel(c: Channel, k: nat)
    requires ChannelInv(c) && CanStep(c, SnapshotSends(k))
    ensures ChannelInv(Take(c, SnapshotSends(k)))
  {
    var row, c' := c.shots[k].row, Take(c, SnapshotSends(k));
    if row.Some? && k in c.st.open {
      FramesOne(c.wire, Snapshot(k, row.value));
      SnapshotSent(c, k, row.value);
    } else {
      assert c'.wire == c.wire;
    }
  }

  lemma SnapshotSent(c: Channel, k: nat, row: nat)
    requires OneSnapshot(c) && Known(c) && LaterIsNewer(c) && k in c.shots && c.shots[k] == Got(Some(row))
    ensures var c' := c.(shots := c.shots - {k}, wire := c.wire + [Snapshot(k, row)]);
      OneSnapshot(c') && Known(c') && LaterIsNewer(c')
  {
    assert forall s :: s in c.wire + [Snapshot(k, row)] <==> s in c.wire || s == Snapshot(k, row);
  }

  lemma {:induction false} ChannelKeeps(steps: seq<Step>)
    ensures ChannelInv(Go(Opening, steps))
    decreases |steps|
  {
    if steps == [] {
      assert Inv(Start);
    } else {
      ChannelKeeps(steps[..|steps| - 1]);
      var before := Go(Opening, steps[..|steps| - 1]);
      match steps[|steps| - 1]
      case Broadcasting(e) => if Enabled(before.st, e) { BroadcastingKeeps(before, e); }
      case SnapshotAnswers(k, held, failed) =>
        if CanStep(before, SnapshotAnswers(k, held, failed)) { AnswerKeepsChannel(before, k, held, failed); }
      case SnapshotSends(k) => if CanStep(before, SnapshotSends(k)) { SendKeepsChannel(before, k); }
    }
  }

  // -------- The last row a window received

  function LastTo(wire: seq<Sent>, k: nat): Option<Sent> {
    if wire == [] then None
    else if To(wire[|wire| - 1]) == k then Some(wire[|wire| - 1])
    else LastTo(wire[..|wire| - 1], k)
  }

  lemma {:induction false} LastToAt(wire: seq<Sent>, k: nat) returns (i: nat)
    requires LastTo(wire, k).Some?
    ensures i < |wire| && LastTo(wire, k) == Some(wire[i]) && To(wire[i]) == k
    ensures forall j :: i < j < |wire| ==> To(wire[j]) != k
  {
    if To(wire[|wire| - 1]) == k {
      i := |wire| - 1;
    } else {
      i := LastToAt(wire[..|wire| - 1], k);
    }
  }

  lemma {:induction false} LastFrameAt(wire: seq<Sent>, k: nat) returns (i: nat)
    requires LastFrame(Frames(wire), k).Some?
    ensures i < |wire| && wire[i] == Update(LastFrame(Frames(wire), k).value) && To(wire[i]) == k
    ensures forall j :: i < j < |wire| && To(wire[j]) == k ==> wire[j].Snapshot?
  {
    var rest, last := wire[..|wire| - 1], wire[|wire| - 1];
    if last.Update? {
      AppendLast(Frames(rest), last.frame, k);
    }
    if last.Update? && last.frame.conn == k {
      i := |wire| - 1;
    } else {
      assert Frames(wire) == Frames(rest) + if last.Update? then [last.frame] else [];
      assert !last.Update? ==> Frames(wire) == Frames(rest);
      i := LastFrameAt(rest, k);
    }
  }

  lemma {:induction false} FramesAt(wire: seq<Sent>, i: nat)
    requires i < |wire| && wire[i].Update?
    ensures |Frames(wire[..i])| < |Frames(wire)| && Frames(wire)[|Frames(wire[..i])|] == wire[i].frame
    ensures forall j :: i < j <= |wire| ==> |Frames(wire[..i])| < |Frames(wire[..j])|
  {
    var rest := wire[..|wire| - 1];
    if i < |wire| - 1 {
      FramesAt(rest, i);
      assert rest[..i] == wire[..i];
      forall j | i < j < |wire| ensures |Frames(wire[..i])| < |Frames(wire[..j])| {
        assert rest[..j] == wire[..j];
      }
    } else {
      assert wire[..i] == rest;
    }
    assert wire[..|wire|] == wire;
  }

  /** One broadcast sends a connection one frame. */
  lemma OneUpdate(wire: seq<Sent>, i: nat, j: nat)
    requires InOrder(Frames(wire)) && i < j < |wire| && wire[i].Update? && wire[j].Update?
    requires wire[i].frame.conn == wire[j].frame.conn
    ensures wire[i].frame.event < wire[j].frame.event
  {
    FramesAt(wire, i);
    FramesAt(wire, j);
  }

  /** Behind the frame of the newest event came the connection's snapshot, read before the row changed for it. */
  ghost predicate StaleBehind(c: Channel, k: nat)
    requires c.st.claim.Some?
  {
    var claim := c.st.claim.value;
    exists i, j :: 0 <= i < j < |c.wire| && c.wire[i] == Update(Frame(k, claim.event, claim.row))
                   && c.wire[j].Snapshot? && c.wire[j].to == k && c.wire[j].version < claim.since
  }

  ghost predicate Quiet(st: State) {
    st.tasks == map[] && st.claim.Some? && !st.claim.value.broken
  }

  lemma LastRowOf(c: Channel, k: nat)
    requires OneSnapshot(c) && InOrder(Frames(c.wire)) && c.st.claim.Some? && c.st.claim.value.since <= c.st.claim.value.row
    requires LastFrame(Frames(c.wire), k) == Some(Frame(k, c.st.claim.value.event, c.st.claim.value.row))
    ensures LastTo(c.wire, k).Some?
    ensures RowIn(LastTo(c.wire, k).value) >= c.st.claim.value.since <==> !StaleBehind(c, k)
  {
    var claim := c.st.claim.value;
    var i := LastFrameAt(c.wire, k);
    AnySent(c.wire, k, i);
    var m := LastToAt(c.wire, k);
    assert i <= m;
    forall i', j | 0 <= i' < j < |c.wire| && c.wire[i'] == Update(Frame(k, claim.event, claim.row))
                   && c.wire[j].Snapshot? && c.wire[j].to == k
      ensures j == m
    {
      if i' < i { OneUpdate(c.wire, i', i); }
    }
  }

  lemma {:induction false} AnySent(wire: seq<Sent>, k: nat, i: nat)
    requires i < |wire| && To(wire[i]) == k
    ensures LastTo(wire, k).Some?
  {
    if To(wire[|wire| - 1]) != k {
      AnySent(wire[..|wire| - 1], k, i);
    }
  }

  /**
   The last row of a window. When nothing is under way and the last visibility check did not fail: an open
   connection the last claim came to, whose user that broadcast was told may see the session, has last received
   a row at least as new as the newest event, unless its snapshot, read before that, was sent behind the event's
   frame, and only then. A connection made later has received nothing but a snapshot that new.
   */
  lemma LastRowIsNewIff(steps: seq<Step>, k: nat)
    requires var c := Go(Opening, steps); Quiet(c.st) && k in c.st.open
    ensures var c := Go(Opening, steps); var claim := c.st.claim.value;
      && c.st.newest == Some(claim.event)
      && (k < claim.visited ==>
            && k in c.st.users && BroadcastVerdicts.Heard(Broadcasts(steps), claim.event, c.st.users[k]).Some?
            && (BroadcastVerdicts.Heard(Broadcasts(steps), claim.event, c.st.users[k]) == Some(true) ==>
                  && LastTo(c.wire, k).Some?
                  && (RowIn(LastTo(c.wire, k).value) >= claim.since <==> !StaleBehind(c, k))))
      && (k >= claim.visited ==> forall s :: s in c.wire && To(s) == k ==> s.Snapshot? && s.version >= claim.since)
  {
    var c := Go(Opening, steps);
    ChannelKeeps(steps);
    BroadcastsGoOn(steps);
    RunKeeps(Broadcasts(steps));
    if k < c.st.claim.value.visited {
      BroadcastVerdicts.LastIsDueIff(Broadcasts(steps), k);
      if BroadcastVerdicts.Heard(Broadcasts(steps), c.st.claim.value.event, c.st.users[k]) == Some(true) {
        LastRowOf(c, k);
      }
    }
  }

  // -------- It happens

  lemma GoOn(steps: seq<Step>, s: Step)
    ensures Go(Opening, steps + [s]) ==
            var before := Go(Opening, steps); if CanStep(before, s) then Take(before, s) else before
  {
    assert (steps + [s])[..|steps|] == steps;
  }

  /** The row was read for the snapshot, changed, and was read for the broadcast. */
  const Landing := Channel(
    State(map[0 := Turns(1, 0, 1)], Some(0), 1, map[0 := Task(0, 1, 1, 1, Reading(Found(1)))], 1,
          map[0 := "u"], {0}, 1, 1, [], None, None),
    map[0 := Got(Some(0))], [])

  lemma LandingReached() returns (steps: seq<Step>)
    ensures Go(Opening, steps) == Landing
  {
    steps := Extended([], Broadcasting(Connect("u")));
    steps := Extended(steps, SnapshotAnswers(0, true, false));
    steps := Extended(steps, Broadcasting(Fire(true)));
    steps := Extended(steps, Broadcasting(DbAnswers(0, true, false)));
  }

  lemma BroadcastLands() returns (a: State, b: State)
    ensures Enabled(Landing.st, ReadReturns(0)) && a == Next(Landing.st, ReadReturns(0)) && a.log == []
    ensures Enabled(a, VerdictReturns(0, Some(true))) && b == Next(a, VerdictReturns(0, Some(true)))
    ensures b.log == [Frame(0, 0, 1)] && b.tasks == map[] && b.open == {0}
    ensures b.claim.Some? && !b.claim.value.broken && b.claim.value.since == 1
  {
    a := Next(Landing.st, ReadReturns(0));
    assert a.tasks[0].phase == Visiting(1, 0, map[]) && a.counters[0] == Turns(1, 1, 1);
    b := Next(a, VerdictReturns(0, Some(true)));
  }

  /** Its broadcast goes out, and then the snapshot is sent: the window ends on the older row. */
  lemma SnapshotCanLandLast() returns (steps: seq<Step>)
    ensures var c := Go(Opening, steps);
      Quiet(c.st) && 0 in c.st.open && c.wire == [Update(Frame(0, 0, 1)), Snapshot(0, 0)] && c.st.claim.value.since == 1
  {
    steps := LandingReached();
    var a, b := BroadcastLands();
    steps := Extended(steps, Broadcasting(ReadReturns(0)));
    steps := Extended(steps, Broadcasting(VerdictReturns(0, Some(true))));
    steps := Extended(steps, SnapshotSends(0));
  }

  lemma Extended(steps: seq<Step>, s: Step) returns (more: seq<Step>)
    ensures more == steps + [s]
    ensures Go(Opening, more) == var before := Go(Opening, steps); if CanStep(before, s) then Take(before, s) else before
  {
    GoOn(steps, s);
    more := steps + [s];
  }
}
