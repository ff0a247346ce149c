/**
 Windows, focus history and saved window set of apps/desktop/src/lib.rs, on top of the quit: which
 windows the next launch reopens. The commands are the synchronous ones of the main thread, so each is
 one event; `order` is the listing of the workspace windows after the change.
 */
module Lifecycle {
  import opened Wrappers
  import opened Workspaces
  import Q = Quit

  type Settings = map<string, string>

  /** `saved` is history: the workspace windows as of the last one that opened or closed outside a quit. */
  datatype State = State(quit: Q.State, focus: seq<Id>, disk: Config, saved: set<Id>)

  datatype Event =
    | OpensBootstrap
    | Opens(id: Id, order: seq<Id>)
    | Switches(id: Id, order: seq<Id>)
    | SecondLaunch(order: seq<Id>)
    | Creates(id: Id, settings: Settings, order: seq<Id>)
    | SetsActive(id: Id)
    | SetsEnabled(id: Id, enabled: bool)
    | Deletes(id: Id)
    | Focuses(window: Q.Window)
    | Destroyed(window: Q.Window, order: seq<Id>)
    | QuitStep(event: Q.Event)

  const Bootstrap: Q.Window := "bootstrap"

  function Window(id: Id): Q.Window { "ws:" + id }

  predicate IsWorkspaceWindow(window: Q.Window) { |window| > 3 && window[..3] == "ws:" }

  function OpenIds(open: set<Q.Window>): set<Id> {
    set window | window in open && IsWorkspaceWindow(window) :: window[3..]
  }

  lemma OpenIdsAre(open: set<Q.Window>, id: Id)
    requires id != []
    ensures id in OpenIds(open) <==> Window(id) in open
  {
    assert IsWorkspaceWindow(Window(id)) && Window(id)[3..] == id;
    if id in OpenIds(open) {
      var window :| window in open && IsWorkspaceWindow(window) && window[3..] == id;
      assert window == window[..3] + window[3..];
    }
  }

  /** `ws_of`: the workspace of a window, if it is one and its workspace exists. */
  function WorkspaceOf(window: Q.Window, c: Config): Option<Id> {
    if IsWorkspaceWindow(window) && window[3..] in c.workspaces then Some(window[3..]) else None
  }

  function Untracked(history: seq<Id>, id: Id): seq<Id> {
    if history == [] then []
    else Untracked(history[..|history| - 1], id)
         + (if history[|history| - 1] == id then [] else [history[|history| - 1]])
  }

  function Touched(history: seq<Id>, id: Id): seq<Id> {
    Untracked(history, id) + [id]
  }

  // -------- Steps

  ghost function Persisted(st: State, order: seq<Id>): State {
    if st.quit.quit.Some? then st
    else
      var r := Persist(st.disk, order, st.focus);
      st.(disk := if r.Ok? then r.value else st.disk, saved := OpenIds(st.quit.open))
  }

  /** `open_window` for a workspace; a window that is there already makes it fail. */
  ghost function OpenWindow(st: State, id: Id, order: seq<Id>): State {
    if Window(id) in st.quit.open then st
    else Persisted(st.(quit := Q.Next(st.quit, Q.Opens(Window(id)))), order)
  }

  ghost function Store(st: State, r: Result<Config, Error>): State {
    if r.Ok? then st.(disk := r.value) else st
  }

  ghost function SecondLaunchTarget(st: State): Id {
    if st.focus != [] then st.focus[|st.focus| - 1] else st.disk.active
  }

  ghost function CloseStep(st: State, window: Q.Window, order: seq<Id>): State {
    var gone := st.(quit := st.quit.(open := st.quit.open - {window}));
    var id := WorkspaceOf(window, st.disk);
    if id.Some? then Persisted(gone.(focus := Untracked(st.focus, id.value)), order) else gone
  }

  ghost predicate Enabled(st: State, e: Event) {
    match e
    case OpensBootstrap => true
    case Opens(id, order) => id in st.disk.workspaces && Q.Listing(order, OpenIds(st.quit.open) + {id})
    case Switches(id, order) => Q.Listing(order, OpenIds(st.quit.open) + {id})
    case SecondLaunch(order) => Q.Listing(order, OpenIds(st.quit.open) + {SecondLaunchTarget(st)})
    case Creates(id, _, order) =>
      |st.disk.workspaces| < 65536 && Q.Listing(order, OpenIds(st.quit.open) + {id})
    case SetsActive(_) => true
    case SetsEnabled(_, _) => true
    case Deletes(_) => true
    case Focuses(window) => window in st.quit.open
    case Destroyed(window, order) =>
      window in st.quit.open && Q.Listing(order, OpenIds(st.quit.open - {window}))
    case QuitStep(e) => !e.Opens? && !e.Destroyed? && Q.Enabled(st.quit, e)
  }

  ghost function Next(st: State, e: Event): State
    requires Enabled(st, e)
  {
    match e
    case OpensBootstrap => st.(quit := Q.Next(st.quit, Q.Opens(Bootstrap)))
    case Opens(id, order) => OpenWindow(st, id, order)
    case Switches(id, order) =>
      if id in st.disk.workspaces && st.disk.workspaces[id].enabled then OpenWindow(st, id, order) else st
    case SecondLaunch(order) => OpenWindow(st, SecondLaunchTarget(st), order)
    case Creates(id, settings, order) =>
      var r := Create(st.disk, id, settings);
      if r.Ok? then OpenWindow(Store(st, r), id, order) else st
    case SetsActive(id) => Store(st, SetActive(st.disk, id))
    case SetsEnabled(id, enabled) =>
      Store(st, SetEnabled(st.disk, id, enabled, Window(id) in st.quit.open, st.focus))
    case Deletes(id) => Store(st, Delete(st.disk, id, Window(id) in st.quit.open, st.focus))
    case Focuses(window) =>
      var id := WorkspaceOf(window, st.disk);
      if id.Some? then st.(focus := Touched(st.focus, id.value)) else st
    case Destroyed(window, order) =>
      var closed := CloseStep(st, window, order);
      closed.(quit := Q.AdvanceQuit(closed.quit))
    case QuitStep(e) => st.(quit := Q.Next(st.quit, e))
  }

  ghost function Run(st: State, events: seq<Event>): State
    decreases |events|
  {
    if events == [] then st
    else
      var before := Run(st, events[..|events| - 1]);
      var e := events[|events| - 1];
      if Enabled(before, e) then Next(before, e) else before
  }

  /** A launch with this file; the windows it restores open one by one as `Opens`. */
  ghost function Start(disk: Config): State {
    State(Q.Start({}), [], disk, set id | id in disk.openWindows)
  }

  // -------- What every run keeps

  ghost predicate Once(ids: seq<Id>) {
    forall i, j :: 0 <= i < j < |ids| ==> ids[i] != ids[j]
  }

  ghost predicate WindowsInv(st: State) {
    && Sound(st.disk)
    && (forall id :: id in OpenIds(st.quit.open) ==> id in st.disk.workspaces)
  }

  ghost predicate FocusInv(st: State) {
    Once(st.focus) && forall id :: id in st.focus ==> id in OpenIds(st.quit.open)
  }

  ghost predicate SavedInv(st: State) {
    Q.Listing(st.disk.openWindows, st.saved)
  }

  ghost predicate Inv(st: State) {
    WindowsInv(st) && FocusInv(st) && SavedInv(st)
  }

  lemma {:induction false} UntrackedIs(history: seq<Id>, id: Id)
    ensures forall o :: o in Untracked(history, id) <==> o in history && o != id
    ensures Once(history) ==> Once(Untracked(history, id))
  {
    if history != [] {
      var before, last := history[..|history| - 1], history[|history| - 1];
      UntrackedIs(before, id);
      assert history == before + [last];
      if Once(history) {
        assert forall i :: 0 <= i < |before| ==> before[i] == history[i] != last;
        OnceMore(Untracked(before, id), last);
      }
    }
  }

  lemma OnceMore(ids: seq<Id>, id: Id)
    requires Once(ids) && id !in ids
    ensures Once(ids + [id])
  {
    assert forall i :: 0 <= i < |ids| ==> ids[i] in ids;
  }

  lemma PersistedKeeps(st: State, order: seq<Id>)
    requires Inv(st) || (st.quit.quit.None? && WindowsInv(st) && FocusInv(st))
    requires Q.Listing(order, OpenIds(st.quit.open))
    ensures Inv(Persisted(st, order))
    ensures st.quit.quit.None? ==> Persist(st.disk, order, st.focus).Ok?
  {
    if st.quit.quit.None? {
      PersistSavesIff(st.disk, order, st.focus);
    }
  }

  lemma OpenKeeps(st: State, id: Id, order: seq<Id>)
    requires Inv(st) && id in st.disk.workspaces && Q.Listing(order, OpenIds(st.quit.open) + {id})
    ensures Inv(OpenWindow(st, id, order))
  {
    OneMore(st.quit.open, id);
    if Window(id) !in st.quit.open {
      PersistedKeeps(st.(quit := Q.Next(st.quit, Q.Opens(Window(id)))), order);
    }
  }

  lemma OneMore(open: set<Q.Window>, id: Id)
    requires id != []
    ensures OpenIds(open + {Window(id)}) == OpenIds(open) + {id}
  {
    forall o | o in OpenIds(open + {Window(id)}) || o in OpenIds(open) + {id}
      ensures o in OpenIds(open + {Window(id)}) && o in OpenIds(open) + {id}
    {
      assert o != [];
      OpenIdsAre(open + {Window(id)}, o);
      OpenIdsAre(open, o);
      assert Window(o)[3..] == o && Window(id)[3..] == id;
    }
  }

  lemma OneLess(open: set<Q.Window>, window: Q.Window)
    ensures OpenIds(open - {window}) == OpenIds(open) - (if IsWorkspaceWindow(window) then {window[3..]} else {})
  {
    forall l | l in open && IsWorkspaceWindow(l) ensures IsWorkspaceWindow(window) && l[3..] == window[3..] ==> l == window {
      assert l == l[..3] + l[3..];
      if IsWorkspaceWindow(window) { assert window == window[..3] + window[3..]; }
    }
  }

  lemma CloseKeeps(st: State, window: Q.Window, order: seq<Id>)
    requires Inv(st) && window in st.quit.open && Q.Listing(order, OpenIds(st.quit.open - {window}))
    ensures Inv(CloseStep(st, window, order))
  {
    OneLess(st.quit.open, window);
    assert IsWorkspaceWindow(window) ==> window[3..] in OpenIds(st.quit.open);
    var gone := st.(quit := st.quit.(open := st.quit.open - {window}));
    var id := WorkspaceOf(window, st.disk);
    if id.Some? {
      UntrackedIs(st.focus, id.value);
      PersistedKeeps(gone.(focus := Untracked(st.focus, id.value)), order);
    }
  }

  lemma CommandKeeps(st: State, r: Result<Config, Error>)
    requires Inv(st)
    requires r.Ok? ==>
               && Sound(r.value) && r.value.openWindows == st.disk.openWindows
               && forall id :: id in OpenIds(st.quit.open) ==> id in r.value.workspaces
    ensures Inv(Store(st, r))
  {
  }

  lemma DeleteKeepsOpen(st: State, id: Id)
    requires Inv(st)
    ensures Inv(Store(st, Delete(st.disk, id, Window(id) in st.quit.open, st.focus)))
  {
    DeleteRemovesIff(st.disk, id, Window(id) in st.quit.open, st.focus);
    if id in st.disk.workspaces {
      OpenIdsAre(st.quit.open, id);
    }
    CommandKeeps(st, Delete(st.disk, id, Window(id) in st.quit.open, st.focus));
  }

  lemma NextKeeps(st: State, e: Event)
    requires Inv(st) && Enabled(st, e)
    ensures Inv(Next(st, e))
  {
    match e
    case OpensBootstrap =>
      OpenIdsWithBootstrap(st.quit.open);
    case Opens(id, order) => OpenKeeps(st, id, order);
    case Switches(id, order) =>
      if id in st.disk.workspaces { OpenKeeps(st, id, order); }
    case SecondLaunch(order) => OpenKeeps(st, SecondLaunchTarget(st), order);
    case Creates(id, settings, order) =>
      var r := Create(st.disk, id, settings);
      CreateAdds(st.disk, id, settings);
      CommandKeeps(st, r);
      if r.Ok? { OpenKeeps(Store(st, r), id, order); }
    case SetsActive(id) => CommandKeeps(st, SetActive(st.disk, id));
    case SetsEnabled(id, enabled) =>
      SetEnabledSwitches(st.disk, id, enabled, Window(id) in st.quit.open, st.focus);
      CommandKeeps(st, SetEnabled(st.disk, id, enabled, Window(id) in st.quit.open, st.focus));
    case Deletes(id) => DeleteKeepsOpen(st, id);
    case Focuses(window) => FocusKeeps(st, window);
    case Destroyed(window, order) =>
      CloseKeeps(st, window, order);
      Q.AdvanceForcesNobody(CloseStep(st, window, order).quit);
    case QuitStep(q) => QuitStepOpens(st.quit, q);
  }

  lemma OpenIdsWithBootstrap(open: set<Q.Window>)
    ensures OpenIds(open + {Bootstrap}) == OpenIds(open)
  {
    assert Bootstrap[..3] == "boo";
    assert !IsWorkspaceWindow(Bootstrap);
  }

  lemma FocusKeeps(st: State, window: Q.Window)
    requires Inv(st) && window in st.quit.open
    ensures Inv(Next(st, Focuses(window)))
  {
    var id := WorkspaceOf(window, st.disk);
    if id.Some? {
      UntrackedIs(st.focus, id.value);
      OnceMore(Untracked(st.focus, id.value), id.value);
      assert id.value in OpenIds(st.quit.open);
    }
  }

  lemma QuitStepOpens(quit: Q.State, e: Q.Event)
    requires !e.Opens? && !e.Destroyed?
    ensures Q.Next(quit, e).open == quit.open
  {
    if (e.Quits? || e.ExitRequested?) && quit.quit.None? {
      var action := if e.Quits? then e.action else Q.Exit;
      Q.AdvanceForcesNobody(quit.(quit := Some(Q.QuitState(e.order, action)), queue := e.order, taken := 0,
                                  asked := [], ran := [], declined := false, newcomers := {}));
    }
  }

  lemma {:induction false} RunKeeps(st: State, events: seq<Event>)
    requires Inv(st)
    ensures Inv(Run(st, events))
    decreases |events|
  {
    if events != [] {
      RunKeeps(st, events[..|events| - 1]);
      var before, e := Run(st, events[..|events| - 1]), events[|events| - 1];
      if Enabled(before, e) {
        NextKeeps(before, e);
      }
    }
  }
}
