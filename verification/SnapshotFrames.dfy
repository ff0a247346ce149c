/**
 All that a window is sent, broadcasts and snapshot together: nothing its user may not see, and of its snapshot
 exactly what was read for it.
 */
module SnapshotFrames {
  import opened Wrappers
  import opened Broadcast
  import opened Snapshots
  import BroadcastVerdicts

  /** Among all that was sent, the frames of broadcasts are due to those who got them. */
  lemma UpdatesAreDue(steps: seq<Step>, s: Sent)
    requires s in Go(Opening, steps).wire && s.Update?
    ensures BroadcastVerdicts.Due(Broadcasts(steps), s.frame)
  {
    var wire := Go(Opening, steps).wire;
    ChannelKeeps(steps);
    BroadcastsGoOn(steps);
    var i :| 0 <= i < |wire| && wire[i] == s;
    FramesAt(wire, i);
    BroadcastVerdicts.FramesAreDue(Broadcasts(steps), s.frame);
  }

  /** The step numbered `i` answers the snapshot read of connection `k` with the row `version` of the session. */
  ghost predicate ReadAt(steps: seq<Step>, k: nat, version: nat, i: nat) {
    && i < |steps| && steps[i] == SnapshotAnswers(k, true, false) && CanStep(Go(Opening, steps[..i]), steps[i])
    && version == Go(Opening, steps[..i]).st.version
  }

  ghost predicate WasRead(steps: seq<Step>, k: nat, version: nat) {
    exists i: nat :: ReadAt(steps, k, version, i)
  }

  predicate ReadsNow(c: Channel, s: Step, k: nat, version: nat) {
    s == SnapshotAnswers(k, true, false) && CanStep(c, s) && version == c.st.version
  }

  lemma WasReadOne(steps: seq<Step>, s: Step, k: nat, version: nat)
    ensures WasRead(steps + [s], k, version) <==> WasRead(steps, k, version) || ReadsNow(Go(Opening, steps), s, k, version)
  {
    forall i: nat | i < |steps| ensures ReadAt(steps + [s], k, version, i) <==> ReadAt(steps, k, version, i) {
      assert (steps + [s])[..i] == steps[..i];
    }
    assert (steps + [s])[..|steps|] == steps;
    assert ReadsNow(Go(Opening, steps), s, k, version) <==> ReadAt(steps + [s], k, version, |steps|);
  }

  predicate OnItsWay(c: Channel, k: nat, version: nat) {
    k in c.shots && c.shots[k] == Got(Some(version))
  }

  predicate WasSent(c: Channel, k: nat, version: nat) {
    Snapshot(k, version) in c.wire
  }

  predicate Gone(c: Channel, k: nat) {
    k < c.st.nextConn && k !in c.st.open && k !in c.shots
  }

  // -------- What one step does to a snapshot

  lemma NoneReopens(st: State, e: Event, k: nat)
    requires Enabled(st, e) && k < st.nextConn && k in Next(st, e).open
    ensures k in st.open
  {
  }

  lemma BroadcastingLeaves(c: Channel, e: Event, k: nat, version: nat)
    requires ChannelInv(c) && Enabled(c.st, e)
    ensures var c' := Take(c, Broadcasting(e));
      && (OnItsWay(c', k, version) <==> OnItsWay(c, k, version)) && (WasSent(c', k, version) <==> WasSent(c, k, version))
      && (Gone(c, k) ==> Gone(c', k))
  {
    var c' := Take(c, Broadcasting(e));
    assert Inv(c.st);
    EventMoves(c.st, e);
    if k < c.st.nextConn && k in c'.st.open {
      NoneReopens(c.st, e, k);
    }
  }

  lemma AnswersLeave(c: Channel, s: Step, k: nat, version: nat)
    requires ChannelInv(c) && CanStep(c, s) && s.SnapshotAnswers?
    ensures var c' := Take(c, s);
      && (OnItsWay(c', k, version) <==> OnItsWay(c, k, version) || ReadsNow(c, s, k, version))
      && (WasSent(c', k, version) <==> WasSent(c, k, version)) && (Gone(c, k) ==> Gone(c', k))
  {
  }

  lemma SendingMoves(c: Channel, j: nat, k: nat, version: nat)
    requires ChannelInv(c) && CanStep(c, SnapshotSends(j))
    ensures var c' := Take(c, SnapshotSends(j));
      && (OnItsWay(c', k, version) <==> OnItsWay(c, k, version) && k != j)
      && (WasSent(c', k, version) <==>
          WasSent(c, k, version) || (k == j && OnItsWay(c, k, version) && k in c.st.open))
      && (Gone(c, k) ==> Gone(c', k)) && (OnItsWay(c, j, version) && j !in c.st.open ==> Gone(c', j))
  {
  }

  /** What was read is on its way or was sent, or the connection was closed in between; and nothing else is. */
  ghost predicate Kept(steps: seq<Step>, k: nat, version: nat) {
    var c := Go(Opening, steps);
    && (OnItsWay(c, k, version) || WasSent(c, k, version) ==> WasRead(steps, k, version))
    && (WasRead(steps, k, version) ==> OnItsWay(c, k, version) || WasSent(c, k, version) || Gone(c, k))
  }

  lemma {:induction false} AlwaysKept(steps: seq<Step>, k: nat, version: nat)
    ensures Kept(steps, k, version)
    decreases |steps|
  {
    if steps != [] {
      var rest, s := steps[..|steps| - 1], steps[|steps| - 1];
      assert steps == rest + [s];
      var c := Go(Opening, rest);
      AlwaysKept(rest, k, version);
      ChannelKeeps(rest);
      WasReadOne(rest, s, k, version);
      if CanStep(c, s) {
        match s
        case Broadcasting(e) => BroadcastingLeaves(c, e, k, version);
        case SnapshotAnswers(_, _, _) => AnswersLeave(c, s, k, version);
        case SnapshotSends(j) => SendingMoves(c, j, k, version);
      }
    }
  }

  lemma EventSendsOpen(c: Channel, e: Event)
    requires ChannelInv(c) && Enabled(c.st, e)
    ensures forall s :: s in Added(c.st, Next(c.st, e)) ==> To(s) in c.st.open
  {
    assert Inv(c.st);
    BroadcastVerdicts.EventSends(c.st, e);
  }

  /** Whatever is sent goes to a connection that is open at that moment. */
  lemma SentWhileOpen(steps: seq<Step>, s: Step)
    ensures var wire, wire' := Go(Opening, steps).wire, Go(Opening, steps + [s]).wire;
      wire <= wire' && forall i :: |wire| <= i < |wire'| ==> To(wire'[i]) in Go(Opening, steps).st.open
  {
    GoOn(steps, s);
    ChannelKeeps(steps);
    if s.Broadcasting? && CanStep(Go(Opening, steps), s) {
      EventSendsOpen(Go(Opening, steps), s.event);
    }
  }

  /**
   The snapshot of an open connection: once it is no longer awaited, it was sent with a row exactly if that
   row was read for it as one its user may see.
   */
  lemma SnapshotSentIff(steps: seq<Step>, k: nat, version: nat)
    requires k in Go(Opening, steps).st.open && k !in Go(Opening, steps).shots
    ensures Snapshot(k, version) in Go(Opening, steps).wire <==> WasRead(steps, k, version)
  {
    AlwaysKept(steps, k, version);
  }
}
