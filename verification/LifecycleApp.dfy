/**
 The handlers of apps/desktop/src/lib.rs behind the life cycle: the focus history and the quit queue in
 memory, config.json through its store. Each takes the step `Lifecycle` reasons about; the listing it
 returns is the order in which it found the workspace windows.
 */
module LifecycleApp {
  import opened Wrappers
  import opened Workspaces
  import opened ConfigStore
  import opened Lifecycle
  import opened LifecycleTheorems
  import opened QuitQueue
  import Q = Quit

  /** `retain` of everything but `id`. */
  method Retain(history: seq<Id>, id: Id) returns (kept: seq<Id>)
    ensures kept == Untracked(history, id)
  {
    kept := [];
    for i := 0 to |history|
      invariant kept == Untracked(history[..i], id)
    {
      assert history[..i + 1][..i] == history[..i];
      if history[i] != id {
        kept := kept + [history[i]];
      }
    }
    assert history[..|history|] == history;
  }

  /** The window map gone through in whatever order it has. */
  method WorkspaceIds(windows: set<Q.Window>) returns (order: seq<Id>)
    ensures Q.Listing(order, OpenIds(windows))
  {
    order := [];
    var rest := windows;
    while rest != {}
      invariant rest <= windows
      invariant Q.Listing(order, OpenIds(windows - rest))
      decreases |rest|
    {
      var window :| window in rest;
      OneLess(windows - (rest - {window}), window);
      assert windows - (rest - {window}) - {window} == windows - rest;
      rest := rest - {window};
      if IsWorkspaceWindow(window) {
        OnceMore(order, window[3..]);
        order := order + [window[3..]];
      }
    }
    assert windows - rest == windows;
  }

  /** The startup selection: a filter with its two fallbacks. */
  method StartupWindows(file: Config) returns (ids: seq<Id>)
    ensures ids == StartupIds(file)
  {
    var saved := file.openWindows;
    ids := [];
    for i := 0 to |saved|
      invariant ids == Restored(saved[..i], file.workspaces)
    {
      assert saved[..i + 1][..i] == saved[..i];
      if saved[i] in file.workspaces && file.workspaces[saved[i]].enabled {
        ids := ids + [saved[i]];
      }
    }
    assert saved[..|saved|] == saved;
    if ids == [] && file.active in file.workspaces && file.workspaces[file.active].enabled {
      ids := [file.active];
    }
  }

  class App {
    const desktop: Desktop
    const store: Store
    var focus: seq<Id>
    ghost var saved: set<Id>

    ghost predicate Loads() reads this, store {
      Loaded(store.disk).Ok?
    }

    ghost function View(): State
      requires Loads()
      reads this, desktop, store
    {
      State(desktop.View(), focus, store.disk.config, saved)
    }

    constructor (config: Config)
      requires Sound(config)
      ensures Loads() && View() == Start(config) && fresh(desktop) && fresh(store)
    {
      desktop := new Desktop({});
      store := new Store(V2(config));
      focus, saved := [], set id | id in config.openWindows;
    }

    method PersistOpenWindows() returns (order: seq<Id>)
      requires Loads()
      modifies this`saved, store
      ensures Loads() && Q.Listing(order, OpenIds(desktop.windows))
      ensures View() == Persisted(old(View()), order)
    {
      order := WorkspaceIds(desktop.windows);
      var _ := store.PersistOpenWindows(desktop.queue.Some?, order, focus);
      if desktop.queue.None? {
        saved := OpenIds(desktop.windows);
      }
    }

    method OpenWindow(id: Id) returns (order: seq<Id>)
      requires Loads() && id != []
      modifies this`saved, desktop, store
      ensures Loads() && Q.Listing(order, OpenIds(old(desktop.windows)) + {id})
      ensures View() == Lifecycle.OpenWindow(old(View()), id, order)
    {
      OneMore(desktop.windows, id);
      OpenIdsAre(desktop.windows, id);
      if "ws:" + id in desktop.windows {
        order := WorkspaceIds(desktop.windows);
        assert OpenIds(desktop.windows) + {id} == OpenIds(desktop.windows);
        return;
      }
      desktop.OpenWindow("ws:" + id);
      order := PersistOpenWindows();
    }

    method OpenWorkspaceWindow(id: Id) returns (order: seq<Id>)
      requires Loads() && id != []
      modifies this`saved, desktop, store
      ensures Loads() && Enabled(old(View()), Switches(id, order))
      ensures View() == Next(old(View()), Switches(id, order))
    {
      if "ws:" + id !in desktop.windows {
        var loaded := store.Load();
        if id !in loaded.value.workspaces || !loaded.value.workspaces[id].enabled {
          order := WorkspaceIds(desktop.windows + {"ws:" + id});
          OneMore(desktop.windows, id);
          return;
        }
      }
      order := OpenWindow(id);
    }

    /** A second launch brings the window focused last to the front, or opens the active one. */
    method FocusOrOpenMostRecent() returns (order: seq<Id>)
      requires Loads() && forall id :: id in focus ==> id != []
      modifies this`saved, desktop, store
      ensures Loads() && Enabled(old(View()), SecondLaunch(order))
      ensures View() == Next(old(View()), SecondLaunch(order))
    {
      var target: Id;
      if focus != [] {
        target := focus[|focus| - 1];
        assert target in focus;
      } else {
        var loaded := store.Load();
        target := loaded.value.active;
      }
      order := OpenWindow(target);
    }

    method CreateWorkspace(id: Id, settings: Settings) returns (failure: Option<Failure>, order: seq<Id>)
      requires Loads() && |store.disk.config.workspaces| < 65536
      modifies this`saved, desktop, store
      ensures Loads()
      ensures failure.None? ==>
                && Enabled(old(View()), Creates(id, settings, order))
                && View() == Next(old(View()), Creates(id, settings, order))
      ensures failure.Some? ==> View() == old(View()) && Create(old(store.disk.config), id, settings).Err?
    {
      order := [];
      CreateAdds(store.disk.config, id, settings);
      failure := store.CreateWorkspace(id, settings);
      if failure.None? {
        order := OpenWindow(id);
      }
    }

    method SetWorkspaceEnabled(id: Id, enabled: bool) returns (failure: Option<Failure>)
      requires Loads()
      modifies store
      ensures Loads() && View() == Next(old(View()), SetsEnabled(id, enabled))
    {
      SetEnabledSwitches(store.disk.config, id, enabled, Window(id) in desktop.windows, focus);
      failure := store.SetWorkspaceEnabled(id, enabled, "ws:" + id in desktop.windows, focus);
    }

    method DeleteWorkspace(id: Id) returns (failure: Option<Failure>)
      requires Loads()
      modifies store
      ensures Loads() && View() == Next(old(View()), Deletes(id))
      ensures failure.Some? ==> store.disk == old(store.disk)
    {
      DeleteRemovesIff(store.disk.config, id, Window(id) in desktop.windows, focus);
      failure := store.DeleteWorkspace(id, "ws:" + id in desktop.windows, focus);
    }

    method OnFocused(window: Q.Window)
      requires Loads() && window in desktop.windows
      modifies this`focus
      ensures View() == Next(old(View()), Focuses(window))
    {
      var loaded := store.Load();
      if IsWorkspaceWindow(window) && window[3..] in loaded.value.workspaces {
        focus := Retain(focus, window[3..]);
        focus := focus + [window[3..]];
      }
    }

    method OnDestroyed(window: Q.Window) returns (order: seq<Id>, action: Option<Q.Action>)
      requires Loads() && window in desktop.windows
      modifies this, desktop, store
      ensures Loads() && Enabled(old(View()), Destroyed(window, order))
      ensures View() == Next(old(View()), Destroyed(window, order))
    {
      desktop.windows := desktop.windows - {window};
      var loaded := store.Load();
      if IsWorkspaceWindow(window) && window[3..] in loaded.value.workspaces {
        focus := Retain(focus, window[3..]);
        order := PersistOpenWindows();
      } else {
        order := WorkspaceIds(desktop.windows);
      }
      assert View() == CloseStep(old(View()), window, order);
      action := desktop.AdvanceQuit();
    }

    /** A launch ends with the windows it selected, saved as they are, or with the bootstrap window. */
    method CreateStartupWindows()
      requires Loads() && desktop.View() == Q.Start({}) && focus == [] && Once(store.disk.config.openWindows)
      modifies this`saved, desktop, store
      ensures Loads()
      ensures store.disk.config.workspaces == old(store.disk.config.workspaces)
      ensures forall id :: id in OpenIds(desktop.windows) <==> id in StartupIds(old(store.disk.config))
      ensures StartupIds(old(store.disk.config)) != [] ==>
                Q.Listing(store.disk.config.openWindows, OpenIds(desktop.windows))
      ensures StartupIds(old(store.disk.config)) == [] ==>
                desktop.windows == {Bootstrap} && store.disk == old(store.disk)
    {
      var file := store.Load();
      var ids := StartupWindows(file.value);
      assert OpenIds({}) == {};
      RestoredIs(file.value.openWindows, file.value.workspaces);
      if ids == [] {
        desktop.OpenWindow(Bootstrap);
        OpenIdsWithBootstrap({});
        return;
      }
      OpenAll(ids);
    }

    /** The selected windows open one by one, and each saves the set as it is then. */
    method OpenAll(ids: seq<Id>)
      requires Loads() && OpenIds(desktop.windows) == {} && desktop.queue.None? && focus == []
      requires ids != [] && Once(ids) && forall id :: id in ids ==> id in store.disk.config.workspaces && id != []
      modifies this`saved, desktop, store
      ensures Loads() && store.disk.config.workspaces == old(store.disk.config.workspaces)
      ensures forall id :: id in OpenIds(desktop.windows) <==> id in ids
      ensures Q.Listing(store.disk.config.openWindows, OpenIds(desktop.windows))
    {
      ghost var ws := store.disk.config.workspaces;
      for i := 0 to |ids|
        invariant Loads() && focus == [] && desktop.queue.None? && store.disk.config.workspaces == ws
        invariant forall id :: id in OpenIds(desktop.windows) <==> id in ids[..i]
        invariant i > 0 ==> Q.Listing(store.disk.config.openWindows, OpenIds(desktop.windows))
      {
        assert ids[i] in ids && ids[i] !in ids[..i];
        OpenIdsAre(desktop.windows, ids[i]);
        OneMore(desktop.windows, ids[i]);
        assert ids[..i + 1] == ids[..i] + [ids[i]];
        ghost var before := View();
        var order := OpenWindow(ids[i]);
        OpenLeaves(before, ids[i], order);
      }
      assert ids[..|ids|] == ids;
    }
  }
}
