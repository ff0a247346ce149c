/**
 What the life cycle promises over whole runs: the saved window set, the focus history, the ports, and
 the windows a launch reopens after a completed quit.
 */
module LifecycleTheorems {
  import opened Wrappers
  import opened Workspaces
  import opened Lifecycle
  import Q = Quit

  /** A file as a launch may find it. */
  ghost predicate Launchable(disk: Config) {
    Sound(disk) && Once(disk.openWindows)
  }

  lemma StartKeeps(disk: Config)
    requires Launchable(disk)
    ensures Inv(Start(disk))
  {
    assert OpenIds({}) == {};
  }

  /** Nothing keeps an open or close from being saved outside a quit. */
  lemma SavingNeverFails(disk: Config, events: seq<Event>, order: seq<Id>)
    requires Launchable(disk)
    requires Q.Listing(order, OpenIds(Run(Start(disk), events).quit.open))
    ensures var st := Run(Start(disk), events);
      Persist(st.disk, order, st.focus).Ok?
  {
    StartKeeps(disk);
    RunKeeps(Start(disk), events);
    var st := Run(Start(disk), events);
    PersistSavesIff(st.disk, order, st.focus);
  }

  /** The focus history names open windows only, each once, and every open window has its workspace. */
  lemma FocusNamesOpenWindows(disk: Config, events: seq<Event>, id: Id)
    requires Launchable(disk)
    ensures var st := Run(Start(disk), events);
      && Once(st.focus)
      && (id in st.focus ==> Window(id) in st.quit.open)
      && (id != [] && Window(id) in st.quit.open ==> id in st.disk.workspaces)
  {
    StartKeeps(disk);
    RunKeeps(Start(disk), events);
    var st := Run(Start(disk), events);
    if id != [] {
      OpenIdsAre(st.quit.open, id);
    }
    assert id in st.focus ==> id in OpenIds(st.quit.open);
  }

  // -------- Ports

  lemma OpenLeaves(st: State, id: Id, order: seq<Id>)
    ensures var disk := OpenWindow(st, id, order).disk;
      && disk.workspaces == st.disk.workspaces
      && (st.quit.quit.Some? ==> disk == st.disk && OpenWindow(st, id, order).saved == st.saved)
  {
  }

  lemma CloseLeaves(st: State, window: Q.Window, order: seq<Id>)
    ensures var closed := CloseStep(st, window, order);
      && closed.disk.workspaces == st.disk.workspaces
      && (st.quit.quit.Some? ==> closed.disk == st.disk && closed.saved == st.saved)
  {
  }

  /** What a command does to the file: nothing to ports, settings and saved windows. */
  ghost predicate Keeps(c: Config, r: Result<Config, Error>) {
    r.Ok? ==>
      && r.value.openWindows == c.openWindows
      && forall id :: id in c.workspaces && id in r.value.workspaces ==>
           && r.value.workspaces[id].port == c.workspaces[id].port
           && r.value.workspaces[id].settings == c.workspaces[id].settings
  }

  lemma CreateKeepsOthers(c: Config, id: Id, settings: Settings)
    requires Sound(c) && |c.workspaces| < 65536
    ensures Keeps(c, Create(c, id, settings))
  {
    CreateAdds(c, id, settings);
  }

  lemma SetEnabledKeepsOthers(c: Config, id: Id, enabled: bool, windowOpen: bool, history: seq<Id>)
    requires Sound(c)
    ensures Keeps(c, SetEnabled(c, id, enabled, windowOpen, history))
  {
    SetEnabledSwitches(c, id, enabled, windowOpen, history);
  }

  lemma DeleteKeepsOthers(c: Config, id: Id, windowOpen: bool, history: seq<Id>)
    requires Sound(c)
    ensures Keeps(c, Delete(c, id, windowOpen, history))
  {
    DeleteRemovesIff(c, id, windowOpen, history);
  }

  lemma NextIsStable(st: State, e: Event, id: Id)
    requires Inv(st) && Enabled(st, e)
    requires id in st.disk.workspaces && id in Next(st, e).disk.workspaces
    ensures Next(st, e).disk.workspaces[id].port == st.disk.workspaces[id].port
    ensures Next(st, e).disk.workspaces[id].settings == st.disk.workspaces[id].settings
  {
    match e
    case Opens(o, order) => OpenLeaves(st, o, order);
    case Switches(o, order) => OpenLeaves(st, o, order);
    case SecondLaunch(order) => OpenLeaves(st, SecondLaunchTarget(st), order);
    case Creates(o, settings, order) =>
      CreateKeepsOthers(st.disk, o, settings);
      OpenLeaves(Store(st, Create(st.disk, o, settings)), o, order);
    case SetsEnabled(o, enabled) =>
      SetEnabledKeepsOthers(st.disk, o, enabled, Window(o) in st.quit.open, st.focus);
    case Deletes(o) => DeleteKeepsOthers(st.disk, o, Window(o) in st.quit.open, st.focus);
    case Destroyed(window, order) => CloseLeaves(st, window, order);
    case _ =>
  }

  /** The port a workspace got stays its port for as long as it is there. */
  lemma {:induction false} PortsStay(disk: Config, events: seq<Event>, id: Id)
    requires Launchable(disk)
    requires forall k :: 0 <= k <= |events| ==> id in Run(Start(disk), events[..k]).disk.workspaces
    ensures id in disk.workspaces && id in Run(Start(disk), events).disk.workspaces
    ensures Run(Start(disk), events).disk.workspaces[id].port == disk.workspaces[id].port
    decreases |events|
  {
    assert events[..|events|] == events && events[..0] == [];
    assert Run(Start(disk), events[..0]) == Start(disk);
    if events != [] {
      var before := events[..|events| - 1];
      forall k | 0 <= k <= |before| ensures id in Run(Start(disk), before[..k]).disk.workspaces {
        assert before[..k] == events[..k];
      }
      PortsStay(disk, before, id);
      StartKeeps(disk);
      RunKeeps(Start(disk), before);
      var e := events[|events| - 1];
      if Enabled(Run(Start(disk), before), e) {
        NextIsStable(Run(Start(disk), before), e, id);
      }
    }
  }

  // -------- Quits

  /** The saved set is the set of windows there are. */
  ghost predicate Settled(st: State) {
    st.saved == OpenIds(st.quit.open)
  }

  /** Outside a quit no event but a quit's own unsettles the saved set; opening and closing settle it. */
  lemma OutsideItSettles(st: State, e: Event)
    requires Inv(st) && Enabled(st, e) && st.quit.quit.None?
    ensures Settled(st) ==> Settled(Next(st, e))
    ensures OpenIds(Next(st, e).quit.open) != OpenIds(st.quit.open) ==> Settled(Next(st, e))
  {
    match e
    case OpensBootstrap => OpenIdsWithBootstrap(st.quit.open);
    case Opens(id, order) => OpenSettles(st, id, order);
    case Switches(id, order) => OpenSettles(st, id, order);
    case SecondLaunch(order) => OpenSettles(st, SecondLaunchTarget(st), order);
    case Creates(id, settings, order) => OpenSettles(Store(st, Create(st.disk, id, settings)), id, order);
    case Destroyed(window, order) => CloseSettles(st, window, order);
    case QuitStep(q) => QuitStepOpens(st.quit, q);
    case _ =>
  }

  lemma OpenSettles(st: State, id: Id, order: seq<Id>)
    requires st.quit.quit.None?
    ensures var st' := OpenWindow(st, id, order);
      && (Settled(st) ==> Settled(st'))
      && (OpenIds(st'.quit.open) != OpenIds(st.quit.open) ==> Settled(st'))
  {
  }

  lemma CloseSettles(st: State, window: Q.Window, order: seq<Id>)
    requires Inv(st) && Enabled(st, Destroyed(window, order)) && st.quit.quit.None?
    ensures var st' := Next(st, Destroyed(window, order));
      && (Settled(st) ==> Settled(st'))
      && (OpenIds(st'.quit.open) != OpenIds(st.quit.open) ==> Settled(st'))
  {
    OneLess(st.quit.open, window);
    assert IsWorkspaceWindow(window) ==> window[3..] in OpenIds(st.quit.open);
    Q.AdvanceForcesNobody(CloseStep(st, window, order).quit);
  }

  /** While a quit is under way, and in the step that begins it, the saved windows stay as they are. */
  lemma QuitLeavesSaved(st: State, e: Event)
    requires Inv(st) && Enabled(st, e) && (st.quit.quit.Some? || e.QuitStep?)
    ensures Next(st, e).disk.openWindows == st.disk.openWindows && Next(st, e).saved == st.saved
  {
    match e
    case Opens(o, order) => OpenLeaves(st, o, order);
    case Switches(o, order) => OpenLeaves(st, o, order);
    case SecondLaunch(order) => OpenLeaves(st, SecondLaunchTarget(st), order);
    case Creates(o, settings, order) =>
      CreateKeepsOthers(st.disk, o, settings);
      OpenLeaves(Store(st, Create(st.disk, o, settings)), o, order);
    case SetsEnabled(o, enabled) =>
      SetEnabledKeepsOthers(st.disk, o, enabled, Window(o) in st.quit.open, st.focus);
    case Deletes(o) => DeleteKeepsOthers(st.disk, o, Window(o) in st.quit.open, st.focus);
    case Destroyed(window, order) => CloseLeaves(st, window, order);
    case _ =>
  }

  /** An event that opens or closes a workspace window. */
  ghost predicate Moves(st: State, e: Event) {
    Enabled(st, e) && OpenIds(Next(st, e).quit.open) != OpenIds(st.quit.open)
  }

  /** The workspace whose window an event opens, if it may; a window that is there already stays. */
  ghost function Opened(st: State, e: Event): Option<Id> {
    match e
    case Opens(id, _) => Some(id)
    case Switches(id, _) => if id in st.disk.workspaces && st.disk.workspaces[id].enabled then Some(id) else None
    case SecondLaunch(_) => if st.focus != [] then Some(st.focus[|st.focus| - 1]) else Some(st.disk.active)
    case Creates(id, _, _) => if IsValidId(id) && id !in st.disk.workspaces then Some(id) else None
    case _ => None
  }

  /**
   Which windows there are after an event: a known workspace opens, a switch opens it only if it is enabled, a new
   one opens as it is created, a second launch opens the one focused last or the active one, and only what is
   destroyed closes.
   */
  lemma WindowsFollow(st: State, e: Event)
    requires Inv(st) && Enabled(st, e)
    ensures var windows, target := OpenIds(st.quit.open), Opened(st, e);
      OpenIds(Next(st, e).quit.open) ==
      if e.Destroyed? then windows - (if IsWorkspaceWindow(e.window) then {e.window[3..]} else {})
      else if target.Some? then windows + {target.value} else windows
  {
    match e
    case OpensBootstrap => OpenIdsWithBootstrap(st.quit.open);
    case Opens(id, order) => OpenAdds(st, id, order);
    case Switches(id, order) => OpenAdds(st, id, order);
    case SecondLaunch(order) => OpenAdds(st, SecondLaunchTarget(st), order);
    case Creates(id, settings, order) =>
      CreateAdds(st.disk, id, settings);
      OpenAdds(Store(st, Create(st.disk, id, settings)), id, order);
    case Destroyed(window, order) =>
      OneLess(st.quit.open, window);
      Q.AdvanceForcesNobody(CloseStep(st, window, order).quit);
    case QuitStep(q) => QuitStepOpens(st.quit, q);
    case _ =>
  }

  lemma OpenAdds(st: State, id: Id, order: seq<Id>)
    ensures id != [] ==> OpenIds(OpenWindow(st, id, order).quit.open) == OpenIds(st.quit.open) + {id}
  {
    if id != [] {
      OneMore(st.quit.open, id);
      OpenIdsAre(st.quit.open, id);
    }
  }

  /** What is saved follows the windows outside a quit, and nothing else. */
  lemma SavedMoves(st: State, e: Event)
    requires Inv(st) && Enabled(st, e)
    ensures var st' := Next(st, e);
      if st.quit.quit.None? && Moves(st, e) then st'.saved == OpenIds(st'.quit.open)
      else st'.saved == st.saved && st'.disk.openWindows == st.disk.openWindows
  {
    if st.quit.quit.Some? || e.QuitStep? {
      QuitLeavesSaved(st, e);
      if e.QuitStep? { QuitStepOpens(st.quit, e.event); }
    } else {
      OutsideItSettles(st, e);
      if !Moves(st, e) { SavedStays(st, e); }
    }
  }

  lemma SavedStays(st: State, e: Event)
    requires Inv(st) && Enabled(st, e) && st.quit.quit.None? && !Moves(st, e)
    ensures Next(st, e).saved == st.saved && Next(st, e).disk.openWindows == st.disk.openWindows
  {
    match e
    case Opens(o, order) => OpenMoves(st, o, order);
    case Switches(o, order) =>
      if o in st.disk.workspaces && st.disk.workspaces[o].enabled { OpenMoves(st, o, order); }
    case SecondLaunch(order) => OpenMoves(st, SecondLaunchTarget(st), order);
    case Creates(o, settings, order) => CreateMoves(st, o, settings, order);
    case SetsEnabled(o, enabled) =>
      SetEnabledKeepsOthers(st.disk, o, enabled, Window(o) in st.quit.open, st.focus);
    case Deletes(o) => DeleteKeepsOthers(st.disk, o, Window(o) in st.quit.open, st.focus);
    case Destroyed(window, order) => CloseMoves(st, window, order);
    case _ =>
  }

  lemma OpenMoves(st: State, id: Id, order: seq<Id>)
    requires Inv(st) && id != []
    requires OpenIds(OpenWindow(st, id, order).quit.open) == OpenIds(st.quit.open)
    ensures OpenWindow(st, id, order) == st
  {
    OpenIdsAre(st.quit.open, id);
    OneMore(st.quit.open, id);
  }

  lemma CreateMoves(st: State, id: Id, settings: Settings, order: seq<Id>)
    requires Inv(st) && Enabled(st, Creates(id, settings, order)) && !Moves(st, Creates(id, settings, order))
    ensures Next(st, Creates(id, settings, order)).saved == st.saved
    ensures Next(st, Creates(id, settings, order)).disk.openWindows == st.disk.openWindows
  {
    var r := Create(st.disk, id, settings);
    CreateAdds(st.disk, id, settings);
    CommandKeeps(st, r);
    if r.Ok? { OpenMoves(Store(st, r), id, order); }
  }

  lemma CloseMoves(st: State, window: Q.Window, order: seq<Id>)
    requires Inv(st) && Enabled(st, Destroyed(window, order)) && !Moves(st, Destroyed(window, order))
    ensures Next(st, Destroyed(window, order)).saved == st.saved
    ensures Next(st, Destroyed(window, order)).disk.openWindows == st.disk.openWindows
  {
    OneLess(st.quit.open, window);
    assert IsWorkspaceWindow(window) ==> window[3..] in OpenIds(st.quit.open);
    Q.AdvanceForcesNobody(CloseStep(st, window, order).quit);
  }

  /** The workspace windows right after the last event that opened or closed one outside a quit. */
  ghost function LastOutside(st: State, events: seq<Event>): set<Id>
    decreases |events|
  {
    if events == [] then st.saved
    else
      var before, e := Run(st, events[..|events| - 1]), events[|events| - 1];
      if before.quit.quit.None? && Moves(before, e) then OpenIds(Next(before, e).quit.open)
      else LastOutside(st, events[..|events| - 1])
  }

  /** The file lists the windows there were after the last open or close outside a quit. */
  lemma {:induction false} SavedIsLastOutside(st: State, events: seq<Event>)
    requires Inv(st)
    ensures Run(st, events).saved == LastOutside(st, events)
    ensures Q.Listing(Run(st, events).disk.openWindows, LastOutside(st, events)) && Sound(Run(st, events).disk)
    decreases |events|
  {
    RunKeeps(st, events);
    if events != [] {
      var rest, e := events[..|events| - 1], events[|events| - 1];
      SavedIsLastOutside(st, rest);
      RunKeeps(st, rest);
      if Enabled(Run(st, rest), e) {
        SavedMoves(Run(st, rest), e);
      }
    }
  }

  /** No workspace window opens or closes while no quit is under way. */
  ghost predicate StillOutside(st: State, events: seq<Event>)
    decreases |events|
  {
    events != [] ==>
      var before, e := Run(st, events[..|events| - 1]), events[|events| - 1];
      StillOutside(st, events[..|events| - 1]) && !(before.quit.quit.None? && Moves(before, e))
  }

  lemma {:induction false} StillKeepsSaved(st: State, events: seq<Event>)
    requires Inv(st) && StillOutside(st, events)
    ensures Run(st, events).saved == st.saved && Run(st, events).disk.openWindows == st.disk.openWindows
    decreases |events|
  {
    if events != [] {
      var rest, e := events[..|events| - 1], events[|events| - 1];
      StillKeepsSaved(st, rest);
      RunKeeps(st, rest);
      if Enabled(Run(st, rest), e) {
        SavedMoves(Run(st, rest), e);
      }
    }
  }

  /** One quit from its beginning: under way after every event but possibly the last. */
  ghost predicate OneQuit(st: State, events: seq<Event>) {
    && events != [] && events[0].QuitStep? && Enabled(st, events[0])
    && forall k :: 1 <= k < |events| ==> Run(st, events[..k]).quit.quit.Some?
  }

  lemma {:induction false} OneQuitIsStill(st: State, events: seq<Event>)
    requires OneQuit(st, events)
    ensures StillOutside(st, events)
    decreases |events|
  {
    var before, e := events[..|events| - 1], events[|events| - 1];
    if before != [] {
      assert before[0] == events[0];
      forall k | 1 <= k < |before| ensures Run(st, before[..k]).quit.quit.Some? {
        assert before[..k] == events[..k];
      }
      OneQuitIsStill(st, before);
      assert events[..|before|] == before;
    } else {
      assert Run(st, before) == st;
      QuitStepOpens(st.quit, e.event);
    }
  }

  /** From here on no quit begins. */
  ghost predicate NoQuit(st: State, events: seq<Event>) {
    forall k :: 0 <= k <= |events| ==> Run(st, events[..k]).quit.quit.None?
  }

  lemma {:induction false} MovedSettles(st: State, events: seq<Event>)
    requires Inv(st) && NoQuit(st, events) && !StillOutside(st, events)
    ensures Settled(Run(st, events))
    decreases |events|
  {
    var rest, e := events[..|events| - 1], events[|events| - 1];
    assert forall k :: 0 <= k <= |rest| ==> rest[..k] == events[..k];
    RunKeeps(st, rest);
    assert Run(st, rest).quit.quit.None?;
    if !StillOutside(st, rest) {
      MovedSettles(st, rest);
    }
    if Enabled(Run(st, rest), e) {
      OutsideItSettles(Run(st, rest), e);
    }
  }

  lemma StillJoins(st: State, x: seq<Event>, y: seq<Event>)
    ensures Run(st, x + y) == Run(Run(st, x), y)
    ensures StillOutside(st, x + y) <==> StillOutside(st, x) && StillOutside(Run(st, x), y)
    decreases |y|
  {
    if y == [] {
      assert x + y == x;
    } else {
      assert (x + y)[..|x + y| - 1] == x + y[..|y| - 1];
      StillJoins(st, x, y[..|y| - 1]);
    }
  }

  /**
   From the quit to the exit. Let a quit that was saved with some windows come to the end of its queue, and
   the last window be gone at the exit, without a second quit. What was saved at the beginning is still saved
   exactly if no workspace window opened or closed behind the end of the queue; otherwise nothing is saved.
   */
  lemma SurvivesToExitIff(st: State, quit: seq<Event>, tail: seq<Event>)
    requires Inv(st) && st.saved != {} && OneQuit(st, quit) && NoQuit(Run(st, quit), tail)
    requires Run(st, quit + tail).quit.open == {}
    ensures Run(st, quit + tail).disk.openWindows == st.disk.openWindows <==> StillOutside(Run(st, quit), tail)
    ensures !StillOutside(Run(st, quit), tail) ==> Run(st, quit + tail).disk.openWindows == []
  {
    var emptied, end := Run(st, quit), Run(st, quit + tail);
    OneQuitIsStill(st, quit);
    StillJoins(st, quit, tail);
    StillKeepsSaved(st, quit);
    RunKeeps(st, quit);
    RunKeeps(st, quit + tail);
    var id :| id in st.saved;
    assert id in st.disk.openWindows;
    if StillOutside(emptied, tail) {
      StillKeepsSaved(emptied, tail);
    } else {
      MovedSettles(emptied, tail);
      assert OpenIds({}) == {};
      SomeListed(end.disk.openWindows);
    }
  }

  lemma SomeListed(ids: seq<Id>)
    ensures ids != [] ==> exists id :: id in ids
  {
    if ids != [] {
      assert ids[0] in ids;
    }
  }

  // -------- The next launch

  predicate Reopens(id: Id, ws: map<Id, Workspace>) {
    id in ws && ws[id].enabled
  }

  function Restored(ids: seq<Id>, ws: map<Id, Workspace>): seq<Id> {
    if ids == [] then []
    else Restored(ids[..|ids| - 1], ws)
         + (if Reopens(ids[|ids| - 1], ws) then [ids[|ids| - 1]] else [])
  }

  /** The workspaces whose windows a launch opens; none stands for the bootstrap window. */
  function StartupIds(c: Config): seq<Id> {
    var restored := Restored(c.openWindows, c.workspaces);
    if restored != [] then restored
    else if Reopens(c.active, c.workspaces) then [c.active]
    else []
  }

  ghost predicate Follows(ids: seq<Id>, a: Id, b: Id) {
    exists k, m :: 0 <= k < m < |ids| && ids[k] == a && ids[m] == b
  }

  /** `small` is what is left of `large`, in its order, when the rest is dropped. */
  ghost predicate InOrder(small: seq<Id>, large: seq<Id>) {
    forall i, j :: 0 <= i < j < |small| ==>
      Follows(large, small[i], small[j])
  }

  lemma InOrderMore(small: seq<Id>, large: seq<Id>, last: Id)
    requires InOrder(small, large) && forall id :: id in small ==> id in large
    ensures InOrder(small + [last], large + [last]) && InOrder(small, large + [last])
  {
    var r, l := small + [last], large + [last];
    forall i, j | 0 <= i < j < |small| ensures Follows(l, small[i], small[j]) {
      assert Follows(large, small[i], small[j]);
      var k, m :| 0 <= k < m < |large| && large[k] == small[i] && large[m] == small[j];
      assert l[k] == small[i] && l[m] == small[j];
    }
    forall i, j | 0 <= i < j < |r| ensures Follows(l, r[i], r[j]) {
      if j == |small| {
        assert small[i] in small;
        var k :| 0 <= k < |large| && large[k] == small[i];
        assert l[k] == r[i] && l[|large|] == r[j];
      } else {
        assert Follows(l, small[i], small[j]);
      }
    }
  }

  lemma {:induction false} RestoredIs(ids: seq<Id>, ws: map<Id, Workspace>)
    ensures var r := Restored(ids, ws);
      (forall id :: id in r <==> id in ids && Reopens(id, ws)) && InOrder(r, ids)
    ensures Once(ids) ==> Once(Restored(ids, ws))
  {
    if ids != [] {
      var before, last := ids[..|ids| - 1], ids[|ids| - 1];
      RestoredIs(before, ws);
      var r := Restored(before, ws);
      assert ids == before + [last];
      InOrderMore(r, before, last);
      assert Restored(ids, ws) == if Reopens(last, ws) then r + [last] else r;
      if Once(ids) && Reopens(last, ws) {
        assert forall i :: 0 <= i < |before| ==> before[i] == ids[i] != last;
        OnceMore(r, last);
      }
    }
  }

  /**
   What happens from a quit to the exit: as long as no workspace window opens or closes outside a quit, the
   next launch opens, once and in their order, exactly those windows saved when it began whose workspace is
   still there and enabled; with none of them, the active one.
   */
  lemma QuitThenLaunch(disk: Config, events: seq<Event>, rest: seq<Event>)
    requires Launchable(disk) && StillOutside(Run(Start(disk), events), rest)
    ensures
      var began := Run(Start(disk), events);
      var file := Run(began, rest).disk;
      var reopened := StartupIds(file);
      && Launchable(file) && Once(reopened)
      && (if exists id :: id in began.saved && Reopens(id, file.workspaces)
          then (forall id :: id in reopened <==> id in began.saved && Reopens(id, file.workspaces))
               && InOrder(reopened, began.disk.openWindows)
          else reopened == if Reopens(file.active, file.workspaces) then [file.active] else [])
  {
    StartKeeps(disk);
    RunKeeps(Start(disk), events);
    var began := Run(Start(disk), events);
    RunKeeps(began, rest);
    StillKeepsSaved(began, rest);
    var file := Run(began, rest).disk;
    RestoredIs(file.openWindows, file.workspaces);
    var restored := Restored(file.openWindows, file.workspaces);
    if restored != [] {
      assert restored[0] in restored;
    }
  }

  /**
   The saved set survives only while the sequence is under way, and the sequence ends before the exit it
   asks for. With `a` asked and `b` closed by hand it ends while `a` is still there; when `a` then
   closes before the exit request is handled, nothing is saved to reopen.
   */
  lemma LateCloseForgets(st: State, a: Id, b: Id)
    requires Inv(st) && st.quit.quit.None? && Settled(st)
    requires a != [] && b != [] && a != b && st.quit.open == {Window(a), Window(b)}
    ensures
      var asked := QuitStep(Q.Quits(Q.Exit, [Window(a), Window(b)]));
      var later := Run(st, [asked, Destroyed(Window(b), [a])]);
      && a in st.disk.openWindows && b in st.disk.openWindows
      && later.quit.ran == [Q.Exit] && later.disk.openWindows == st.disk.openWindows
      && Enabled(later, Destroyed(Window(a), []))
      && Next(later, Destroyed(Window(a), [])).disk.openWindows == []
  {
    OpenIdsAre(st.quit.open, a);
    OpenIdsAre(st.quit.open, b);
    var asks := QuitStep(Q.Quits(Q.Exit, [Window(a), Window(b)]));
    var events := [asks, Destroyed(Window(b), [a])];
    assert Window(a)[3..] == a && Window(b)[3..] == b;
    assert [Window(a), Window(b)][0] == Window(a) && [Window(a), Window(b)][1] == Window(b);
    assert Q.Listing([Window(a), Window(b)], st.quit.open);
    var asked := Next(st, asks);
    assert events[..1] == [asks] && events[..1][..0] == [];
    assert Run(st, []) == st;
    assert Run(st, events[..1]) == asked;
    assert asked.quit.quit == Some(Q.QuitState([Window(b)], Q.Exit)) && asked.quit.open == st.quit.open;
    CloseSecond(asked, a, b);
    CloseLast(Next(asked, events[1]), a);
  }

  lemma CloseSecond(asked: State, a: Id, b: Id)
    requires Inv(asked) && asked.quit.quit == Some(Q.QuitState([Window(b)], Q.Exit)) && asked.quit.ran == []
    requires a != [] && b != [] && a != b && asked.quit.open == {Window(a), Window(b)}
    ensures Enabled(asked, Destroyed(Window(b), [a]))
    ensures var later := Next(asked, Destroyed(Window(b), [a]));
      && Inv(later) && later.quit.ran == [Q.Exit] && later.quit.quit.None? && later.quit.open == {Window(a)}
      && later.disk == asked.disk
  {
    assert Window(a)[3..] == a && Window(b)[3..] == b;
    assert asked.quit.open - {Window(b)} == {Window(a)};
    OpenIdsAre({Window(a)}, a);
    assert OpenIds({Window(a)}) == {a};
    NextKeeps(asked, Destroyed(Window(b), [a]));
    var closed := CloseStep(asked, Window(b), [a]);
    assert closed.quit == asked.quit.(open := {Window(a)}) && closed.disk == asked.disk;
    Q.AdvanceMovesOn(closed.quit);
    Q.AdvanceForcesNobody(closed.quit);
  }

  lemma CloseLast(st: State, a: Id)
    requires Inv(st) && st.quit.quit.None? && a != [] && st.quit.open == {Window(a)}
    ensures Enabled(st, Destroyed(Window(a), []))
    ensures Next(st, Destroyed(Window(a), [])).disk.openWindows == []
  {
    assert Window(a)[3..] == a && st.quit.open - {Window(a)} == {} && OpenIds({}) == {};
    OpenIdsAre(st.quit.open, a);
    UntrackedIs(st.focus, a);
    var gone := st.(quit := st.quit.(open := {}), focus := Untracked(st.focus, a));
    assert IsWorkspaceWindow(Window(a)) && a in st.disk.workspaces;
    PersistedKeeps(gone, []);
  }
}
