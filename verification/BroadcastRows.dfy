/**
 The rows that broadcasts send. Frames follow the order of the events; the rows in them were read in
 between, and follow the order in which the reads were answered.
 */
module BroadcastRows {
  import opened Wrappers
  import opened Broadcast

  /** The changes of the row that have happened. */
  function Changes(events: seq<Event>): nat {
    if events == [] then 0
    else Changes(events[..|events| - 1]) + if events[|events| - 1] == Fire(true) then 1 else 0
  }

  lemma {:induction false} VersionIsChanges(events: seq<Event>)
    ensures Run(Start, events).version == Changes(events)
  {
    if events != [] {
      var rest := events[..|events| - 1];
      VersionIsChanges(rest);
      RunKeeps(rest);
      if Enabled(Run(Start, rest), events[|events| - 1]) {
        VersionMovesOn(Run(Start, rest), events[|events| - 1]);
      }
    }
  }

  lemma VersionMovesOn(st: State, e: Event)
    requires Enabled(st, e)
    ensures Next(st, e).version == st.version + if e == Fire(true) then 1 else 0
  {
  }

  lemma {:induction false} ChangesGrowIff(events: seq<Event>, i: nat, j: nat)
    requires i <= j <= |events|
    ensures Changes(events[..i]) <= Changes(events[..j])
    ensures Changes(events[..i]) < Changes(events[..j]) <==> exists c :: i <= c < j && events[c] == Fire(true)
    decreases j
  {
    if i < j {
      ChangesGrowIff(events, i, j - 1);
      assert events[..j][..j - 1] == events[..j - 1];
    }
  }

  /** The read of broadcast `t` was answered by the event numbered `i`. */
  ghost predicate AnsweredAt(events: seq<Event>, t: nat, i: nat) {
    && i < |events| && events[i] == DbAnswers(t, true, false)
    && Enabled(Run(Start, events[..i]), events[i])
  }

  /** Row `row` is what the read of broadcast `t` found. */
  ghost predicate ReadBy(events: seq<Event>, t: nat, row: nat) {
    exists i: nat :: AnsweredAt(events, t, i) && row == Changes(events[..i])
  }

  lemma ReadByStays(events: seq<Event>, e: Event, t: nat, row: nat)
    requires ReadBy(events, t, row)
    ensures ReadBy(events + [e], t, row)
  {
    var i: nat :| AnsweredAt(events, t, i) && row == Changes(events[..i]);
    assert (events + [e])[..i] == events[..i];
    assert AnsweredAt(events + [e], t, i);
  }

  function RowOf(p: Phase): Option<nat> {
    match p
    case Reading(Found(row)) => Some(row)
    case Visiting(row, _, _) => Some(row)
    case _ => None
  }

  lemma ReadRows(st: State, u: nat, t: nat)
    requires Inv(st) && Enabled(st, ReadReturns(u)) && t in ReadStep(st, u).tasks
    ensures t in st.tasks && RowOf(ReadStep(st, u).tasks[t].phase) == RowOf(st.tasks[t].phase)
  {
  }

  lemma VerdictRows(st: State, u: nat, verdict: Option<bool>, t: nat)
    requires Waits(st, u) && t in VerdictStep(st, u, verdict).tasks
    ensures t in st.tasks && RowOf(VerdictStep(st, u, verdict).tasks[t].phase) == RowOf(st.tasks[t].phase)
  {
  }

  /** Rows come from the reads: what an event leaves of them it has taken over, or read just now. */
  lemma RowsMoveOn(st: State, e: Event, t: nat)
    requires Inv(st) && Enabled(st, e)
    ensures var st' := Next(st, e);
      t in st'.tasks && RowOf(st'.tasks[t].phase).Some? ==>
        || (t in st.tasks && RowOf(st'.tasks[t].phase) == RowOf(st.tasks[t].phase))
        || (e == DbAnswers(t, true, false) && RowOf(st'.tasks[t].phase) == Some(st.version))
  {
    if t in Next(st, e).tasks {
      match e
      case ReadReturns(u) => ReadRows(st, u, t);
      case VerdictReturns(u, verdict) => VerdictRows(st, u, verdict, t);
      case _ =>
    }
  }

  lemma ClaimsMoveOn(st: State, e: Event)
    requires Inv(st) && Enabled(st, e)
    ensures var st' := Next(st, e);
      st'.claim.Some? ==>
        || (st.claim.Some? && st'.claim.value.event == st.claim.value.event && st'.claim.value.row == st.claim.value.row)
        || (st'.claim.value.event in st.tasks
            && RowOf(st.tasks[st'.claim.value.event].phase) == Some(st'.claim.value.row))
  {
  }

  lemma {:induction false} TaskRowRead(events: seq<Event>, t: nat)
    requires t in Run(Start, events).tasks && RowOf(Run(Start, events).tasks[t].phase).Some?
    ensures ReadBy(events, t, RowOf(Run(Start, events).tasks[t].phase).value)
    decreases |events|
  {
    var rest, e := events[..|events| - 1], events[|events| - 1];
    assert events == rest + [e];
    var st, row := Run(Start, rest), RowOf(Run(Start, events).tasks[t].phase).value;
    RunKeeps(rest);
    if Enabled(st, e) {
      RowsMoveOn(st, e, t);
    }
    if t in st.tasks && RowOf(st.tasks[t].phase) == Some(row) {
      TaskRowRead(rest, t);
      ReadByStays(rest, e, t, row);
    } else {
      VersionIsChanges(rest);
      assert AnsweredAt(events, t, |rest|);
    }
  }

  lemma {:induction false} ClaimRowRead(events: seq<Event>)
    requires Run(Start, events).claim.Some?
    ensures ReadBy(events, Run(Start, events).claim.value.event, Run(Start, events).claim.value.row)
    decreases |events|
  {
    var rest, e := events[..|events| - 1], events[|events| - 1];
    assert events == rest + [e];
    var st, claim := Run(Start, rest), Run(Start, events).claim.value;
    RunKeeps(rest);
    if Enabled(st, e) {
      ClaimsMoveOn(st, e);
    }
    if st.claim.Some? && st.claim.value.event == claim.event && st.claim.value.row == claim.row {
      ClaimRowRead(rest);
    } else {
      TaskRowRead(rest, claim.event);
    }
    ReadByStays(rest, e, claim.event, claim.row);
  }

  /**
   A claim sends an older row than an earlier claim exactly if its read was answered before the other one,
   and the row changed in between.
   */
  lemma RowsStepBackIff(events: seq<Event>, p: nat, q: nat) returns (i: nat, j: nat)
    requires p <= q <= |events| && Run(Start, events[..p]).claim.Some? && Run(Start, events[..q]).claim.Some?
    ensures AnsweredAt(events, Run(Start, events[..p]).claim.value.event, i)
    ensures AnsweredAt(events, Run(Start, events[..q]).claim.value.event, j)
    ensures Run(Start, events[..q]).claim.value.row < Run(Start, events[..p]).claim.value.row <==>
            exists c :: j <= c < i && events[c] == Fire(true)
  {
    i := ClaimAnswered(events, p);
    j := ClaimAnswered(events, q);
    if j <= i {
      ChangesGrowIff(events, j, i);
    } else {
      ChangesGrowIff(events, i, j);
    }
  }

  lemma ClaimAnswered(events: seq<Event>, p: nat) returns (i: nat)
    requires p <= |events| && Run(Start, events[..p]).claim.Some?
    ensures AnsweredAt(events, Run(Start, events[..p]).claim.value.event, i)
    ensures Run(Start, events[..p]).claim.value.row == Changes(events[..i])
  {
    ClaimRowRead(events[..p]);
    var claim := Run(Start, events[..p]).claim.value;
    i :| AnsweredAt(events[..p], claim.event, i) && claim.row == Changes(events[..p][..i]);
    assert events[..p][..i] == events[..i];
  }

  /** Three broadcasts under way; the second was read before the third event, the first after it. */
  const Overlap := State(
    map[0 := Turns(3, 0, 3)], Some(0), 1,
    map[0 := Task(0, 1, 1, 1, Reading(Found(3))), 1 := Task(0, 2, 2, 1, Reading(Found(2))),
        2 := Task(0, 3, 3, 1, Reading(Pending))], 3,
    map[0 := "u"], {0}, 1, 3, [], None, None)

  lemma OverlapReached() returns (events: seq<Event>)
    ensures Run(Start, events) == Overlap
  {
    events := [Connect("u")];
    RunStep([], Connect("u"));
    RunStep(events, Fire(true));
    events := events + [Fire(true)];
    RunStep(events, Fire(true));
    events := events + [Fire(true)];
    RunStep(events, DbAnswers(1, true, false));
    events := events + [DbAnswers(1, true, false)];
    RunStep(events, Fire(true));
    events := events + [Fire(true)];
    RunStep(events, DbAnswers(0, true, false));
    events := events + [DbAnswers(0, true, false)];
    assert Run(Start, events).tasks == Overlap.tasks;
  }

  /** From there the first broadcast sends its row, and then the second one. */
  lemma OverlapSends() returns (a: State, b: State, c: State, d: State)
    ensures Enabled(Overlap, ReadReturns(0)) && a == Next(Overlap, ReadReturns(0))
    ensures Enabled(a, VerdictReturns(0, Some(true))) && b == Next(a, VerdictReturns(0, Some(true)))
    ensures Enabled(b, ReadReturns(1)) && c == Next(b, ReadReturns(1))
    ensures Enabled(c, VerdictReturns(1, Some(true))) && d == Next(c, VerdictReturns(1, Some(true)))
    ensures d.log == [Frame(0, 0, 3), Frame(0, 1, 2)]
  {
    a := Next(Overlap, ReadReturns(0));
    assert a.tasks[0].phase == Visiting(3, 0, map[]);
    b := Next(a, VerdictReturns(0, Some(true)));
    assert b.log == [Frame(0, 0, 3)] && b.tasks[1] == Overlap.tasks[1] && b.counters[0] == Turns(3, 1, 2);
    c := Next(b, ReadReturns(1));
    assert c.tasks[1].phase == Visiting(2, 0, map[]) && c.log == b.log;
    d := Next(c, VerdictReturns(1, Some(true)));
  }

  /**
   It happens: a slow read of an older event is answered from a newer row and still goes out first. The
   window then steps back one row until the broadcast of the newest event lands.
   */
  lemma RowsCanStepBack() returns (events: seq<Event>)
    ensures var log := Run(Start, events).log;
      |log| == 2 && log[0].conn == log[1].conn && log[0].row > log[1].row
  {
    events := OverlapReached();
    var a, b, c, d := OverlapSends();
    RunStep(events, ReadReturns(0));
    events := events + [ReadReturns(0)];
    RunStep(events, VerdictReturns(0, Some(true)));
    events := events + [VerdictReturns(0, Some(true))];
    RunStep(events, ReadReturns(1));
    events := events + [ReadReturns(1)];
    RunStep(events, VerdictReturns(1, Some(true)));
    events := events + [VerdictReturns(1, Some(true))];
  }
}
