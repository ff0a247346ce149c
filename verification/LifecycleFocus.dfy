/**
 The focus history of apps/desktop/src/lib.rs, measured by the focus events: which windows it names, and in
 which order. It decides what a second launch raises, which workspace is saved as the active one, and which one
 takes over for a workspace that goes.
 */
module LifecycleFocus {
  import opened Wrappers
  import opened Workspaces
  import opened Lifecycle
  import opened LifecycleTheorems

  /** The event gives the focus to the window of workspace `id`. */
  ghost predicate FocusesOn(st: State, e: Event, id: Id) {
    e.Focuses? && Enabled(st, e) && WorkspaceOf(e.window, st.disk) == Some(id)
  }

  /** The event closes the window of workspace `id`. */
  ghost predicate Closes(st: State, e: Event, id: Id) {
    e.Destroyed? && Enabled(st, e) && WorkspaceOf(e.window, st.disk) == Some(id)
  }

  /** Behind how many events the window of `id` last got the focus, if it did since it opened. */
  ghost function LastFocus(disk: Config, events: seq<Event>, id: Id): Option<nat>
    decreases |events|
  {
    if events == [] then None
    else
      var rest, e := events[..|events| - 1], events[|events| - 1];
      if FocusesOn(Run(Start(disk), rest), e, id) then Some(|rest|)
      else if Closes(Run(Start(disk), rest), e, id) then None
      else LastFocus(disk, rest, id)
  }

  lemma {:induction false} LastFocusIsPast(disk: Config, events: seq<Event>, id: Id)
    ensures LastFocus(disk, events, id).Some? ==> LastFocus(disk, events, id).value < |events|
    decreases |events|
  {
    if events != [] {
      LastFocusIsPast(disk, events[..|events| - 1], id);
    }
  }

  // -------- What every run keeps

  /** The history names exactly the windows focused since they opened, the one focused later behind. */
  ghost predicate ByFocus(focus: seq<Id>, last: Id -> Option<nat>) {
    && (forall id :: id in focus <==> last(id).Some?)
    && (forall i, j :: 0 <= i < j < |focus| && last(focus[i]).Some? && last(focus[j]).Some? ==>
          last(focus[i]).value < last(focus[j]).value)
  }

  /** An item of what is left stood in the whole before all that stand behind it now. */
  lemma {:induction false} UntrackedOrder(history: seq<Id>, id: Id, last: Id -> Option<nat>)
    requires ByFocusOrder(history, last)
    ensures ByFocusOrder(Untracked(history, id), last)
  {
    if history != [] {
      var before, h := history[..|history| - 1], history[|history| - 1];
      UntrackedOrder(before, id, last);
      UntrackedIs(before, id);
      var left := Untracked(before, id);
      forall i | 0 <= i < |left| && last(left[i]).Some? && last(h).Some? ensures last(left[i]).value < last(h).value {
        assert left[i] in before;
        var k :| 0 <= k < |before| && before[k] == left[i];
        assert history[k] == left[i] && history[|before|] == h;
      }
    }
  }

  ghost predicate ByFocusOrder(focus: seq<Id>, last: Id -> Option<nat>) {
    forall i, j :: 0 <= i < j < |focus| && last(focus[i]).Some? && last(focus[j]).Some? ==>
      last(focus[i]).value < last(focus[j]).value
  }

  ghost function Lasts(disk: Config, events: seq<Event>): Id -> Option<nat> {
    id => LastFocus(disk, events, id)
  }

  ghost predicate Ordered(disk: Config, events: seq<Event>) {
    ByFocus(Run(Start(disk), events).focus, Lasts(disk, events))
  }

  lemma OtherEvents(st: State, e: Event)
    requires Inv(st) && Enabled(st, e) && !e.Focuses? && !e.Destroyed?
    ensures Next(st, e).focus == st.focus
  {
  }

  lemma SameLast(disk: Config, events: seq<Event>, e: Event, id: Id)
    requires !FocusesOn(Run(Start(disk), events), e, id) && !Closes(Run(Start(disk), events), e, id)
    ensures LastFocus(disk, events + [e], id) == LastFocus(disk, events, id)
  {
    assert (events + [e])[..|events|] == events;
  }

  lemma SameOrder(focus: seq<Id>, last: Id -> Option<nat>, last': Id -> Option<nat>)
    requires ByFocus(focus, last) && forall id :: last'(id) == last(id)
    ensures ByFocus(focus, last')
  {
  }

  lemma FocusedOrder(focus: seq<Id>, id: Id, n: nat, last: Id -> Option<nat>, last': Id -> Option<nat>)
    requires ByFocus(focus, last) && forall o :: last(o).Some? ==> last(o).value < n
    requires last'(id) == Some(n) && forall o :: o != id ==> last'(o) == last(o)
    ensures ByFocus(Touched(focus, id), last')
  {
    UntrackedIs(focus, id);
    UntrackedOrder(focus, id, last);
    var left := Untracked(focus, id);
    forall i | 0 <= i < |left| ensures last'(left[i]) == last(left[i]) && left[i] in focus && left[i] != id {
      assert left[i] in left;
    }
  }

  lemma ClosedOrder(focus: seq<Id>, id: Id, last: Id -> Option<nat>, last': Id -> Option<nat>)
    requires ByFocus(focus, last) && last'(id) == None && forall o :: o != id ==> last'(o) == last(o)
    ensures ByFocus(Untracked(focus, id), last')
  {
    UntrackedIs(focus, id);
    UntrackedOrder(focus, id, last);
    var left := Untracked(focus, id);
    forall i | 0 <= i < |left| ensures last'(left[i]) == last(left[i]) {
      assert left[i] in left;
    }
  }

  lemma OrderedOne(disk: Config, events: seq<Event>, e: Event)
    requires Ordered(disk, events) && Inv(Run(Start(disk), events)) && Enabled(Run(Start(disk), events), e)
    ensures ByFocus(Next(Run(Start(disk), events), e).focus, Lasts(disk, events + [e]))
  {
    var st := Run(Start(disk), events);
    var last, last' := Lasts(disk, events), Lasts(disk, events + [e]);
    assert (events + [e])[..|events|] == events;
    var window := if e.Focuses? then e.window else if e.Destroyed? then e.window else "";
    var id := WorkspaceOf(window, st.disk);
    forall o | !((e.Focuses? || e.Destroyed?) && id == Some(o)) ensures last'(o) == last(o) {
      SameLast(disk, events, e, o);
    }
    if (e.Focuses? || e.Destroyed?) && id.Some? {
      forall o ensures last(o).Some? ==> last(o).value < |events| {
        LastFocusIsPast(disk, events, o);
      }
      if e.Focuses? {
        FocusedOrder(st.focus, id.value, |events|, last, last');
      } else {
        ClosedOrder(st.focus, id.value, last, last');
        assert Next(st, e).focus == Untracked(st.focus, id.value);
      }
    } else {
      if !e.Focuses? && !e.Destroyed? { OtherEvents(st, e); }
      SameOrder(st.focus, last, last');
    }
  }

  lemma {:induction false} AlwaysOrdered(disk: Config, events: seq<Event>)
    requires Launchable(disk)
    ensures Ordered(disk, events)
    decreases |events|
  {
    if events != [] {
      var rest, e := events[..|events| - 1], events[|events| - 1];
      assert events == rest + [e];
      AlwaysOrdered(disk, rest);
      StartKeeps(disk);
      RunKeeps(Start(disk), rest);
      if Enabled(Run(Start(disk), rest), e) {
        OrderedOne(disk, rest, e);
      } else {
        forall id ensures LastFocus(disk, events, id) == LastFocus(disk, rest, id) {
          SameLast(disk, rest, e, id);
        }
        SameOrder(Run(Start(disk), rest).focus, Lasts(disk, rest), Lasts(disk, events));
      }
    }
  }

  // -------- The theorems

  /** The history names exactly the windows that had the focus since they opened, in the order of their last focus. */
  lemma FocusIsRecency(disk: Config, events: seq<Event>)
    requires Launchable(disk)
    ensures var focus := Run(Start(disk), events).focus;
      && (forall id :: id in focus <==> LastFocus(disk, events, id).Some?)
      && (forall i, j :: 0 <= i < j < |focus| ==>
            && LastFocus(disk, events, focus[i]).Some? && LastFocus(disk, events, focus[j]).Some?
            && LastFocus(disk, events, focus[i]).value < LastFocus(disk, events, focus[j]).value)
  {
    AlwaysOrdered(disk, events);
    var focus, last := Run(Start(disk), events).focus, Lasts(disk, events);
    forall i | 0 <= i < |focus| ensures last(focus[i]).Some? && LastFocus(disk, events, focus[i]) == last(focus[i]) {
      assert focus[i] in focus;
    }
    forall id ensures LastFocus(disk, events, id) == last(id) {
    }
  }

  /** A second launch raises the window that had the focus last of those still open, if any had it. */
  lemma SecondLaunchRaisesLatest(disk: Config, events: seq<Event>)
    requires Launchable(disk)
    ensures var st := Run(Start(disk), events); var target := SecondLaunchTarget(st);
      if exists id :: LastFocus(disk, events, id).Some?
      then LastFocus(disk, events, target).Some? && forall id :: LastFocus(disk, events, id).Some? && id != target ==>
             LastFocus(disk, events, id).value < LastFocus(disk, events, target).value
      else target == st.disk.active
  {
    FocusIsRecency(disk, events);
    var st := Run(Start(disk), events);
    if st.focus == [] {
      forall id ensures LastFocus(disk, events, id).None? {
        assert id !in st.focus;
      }
    } else {
      assert st.focus[|st.focus| - 1] in st.focus;
      forall id | LastFocus(disk, events, id).Some? && id != st.focus[|st.focus| - 1]
        ensures LastFocus(disk, events, id).value < LastFocus(disk, events, st.focus[|st.focus| - 1]).value
      {
        assert id in st.focus;
        var i :| 0 <= i < |st.focus| && st.focus[i] == id;
      }
    }
  }
}
