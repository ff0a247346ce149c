/**
 config.json on disk and the code that rewrites it: `validate`, `load`, `save` and `allocate_port` of
 apps/desktop/src/workspace.rs, the commands of apps/desktop/src/lib.rs. Every command is one
 load-change-save under the config lock.
 */
module ConfigStore {
  import opened Wrappers
  import opened Workspaces

  datatype Disk = Missing | V1 | V2(config: Config)

  datatype Failure = ConfigMissing | NotMigrated | Refused(error: Error)

  datatype Flaw = NoWorkspaces | ActiveUnknown | BadId(id: Id) | SharedPort(one: Id, other: Id, port: Port)

  ghost function Loaded(disk: Disk): Result<Config, Failure> {
    match disk
    case Missing => Err(ConfigMissing)
    case V1 => Err(NotMigrated)
    case V2(c) => if Sound(c) then Ok(c) else Err(Refused(Invalid))
  }

  /** A command that got through has its result on disk; one that failed has left the disk alone. */
  ghost predicate Committed(was: Disk, now: Disk, failure: Option<Failure>, r: Result<Config, Error>) {
    if Loaded(was).Ok? && r.Ok? then failure.None? && now == V2(r.value)
    else
      && now == was && failure.Some?
      && (Loaded(was).Ok? ==> failure == Some(Refused(r.error)))
  }

  lemma LeastIsUnique(a: Id, b: Id, ids: set<Id>)
    requires IsLeast(a, ids) && IsLeast(b, ids)
    ensures a == b
  {
    BeforeIsTotal(a, b);
  }

  /** Going through the map: the ids in their order. */
  method Keys(ws: map<Id, Workspace>) returns (keys: seq<Id>)
    ensures keys == SortedKeys(ws.Keys)
  {
    keys := [];
    var rest := ws.Keys;
    while rest != {}
      invariant keys + SortedKeys(rest) == SortedKeys(ws.Keys)
      decreases |rest|
    {
      LeastExists(rest);
      assert exists id :: id in rest && IsLeast(id, rest);
      var least :| least in rest && forall other :: other in rest && other != least ==> Before(least, other);
      LeastIsUnique(least, SortedKeys(rest)[0], rest);
      keys := keys + [least];
      rest := rest - {least};
    }
  }

  ghost predicate Seen(seen: map<Port, Id>, ws: map<Id, Workspace>, done: seq<Id>) {
    && (forall p :: p in seen ==> seen[p] in done && seen[p] in ws && ws[seen[p]].port == Some(p))
    && (forall id :: id in done && id in ws && ws[id].port.Some? ==>
          ws[id].port.value in seen && seen[ws[id].port.value] == id)
  }

  ghost predicate Flawed(ws: map<Id, Workspace>, flaw: Flaw) {
    match flaw
    case BadId(id) => id in ws && !IsValidId(id)
    case SharedPort(one, other, p) =>
      one != other && one in ws && other in ws && ws[one].port == Some(p) && ws[other].port == Some(p)
    case _ => false
  }

  /** Finds nothing wrong exactly in the sound files; what it names is wrong indeed. */
  method Validate(c: Config) returns (flaw: Option<Flaw>)
    ensures flaw.None? <==> Sound(c)
    ensures flaw == Some(NoWorkspaces) ==> c.workspaces == map[]
    ensures flaw == Some(ActiveUnknown) ==> c.active !in c.workspaces
    ensures flaw.Some? && !flaw.value.NoWorkspaces? && !flaw.value.ActiveUnknown? ==> Flawed(c.workspaces, flaw.value)
  {
    if c.workspaces == map[] {
      return Some(NoWorkspaces);
    }
    if c.active !in c.workspaces {
      return Some(ActiveUnknown);
    }
    flaw := ValidateEntries(c.workspaces);
  }

  method ValidateEntries(ws: map<Id, Workspace>) returns (flaw: Option<Flaw>)
    ensures flaw.None? <==> (forall id :: id in ws ==> IsValidId(id)) && PortsDistinct(ws)
    ensures flaw.Some? ==> Flawed(ws, flaw.value)
  {
    var seen: map<Port, Id> := map[];
    var keys := Keys(ws);
    SortedKeysListThem(ws.Keys);
    assert forall k :: 0 <= k < |keys| ==> keys[k] in ws;
    for i := 0 to |keys|
      invariant forall k :: 0 <= k < i ==> IsValidId(keys[k])
      invariant Seen(seen, ws, keys[..i])
    {
      var id := keys[i];
      NoRepeats(keys, i);
      SeenMore(seen, ws, keys, i);
      if !IsValidId(id) {
        return Some(BadId(id));
      }
      var port := ws[id].port;
      if port.Some? {
        if port.value in seen {
          return Some(SharedPort(seen[port.value], id, port.value));
        }
        seen := seen[port.value := id];
      }
    }
    assert keys[..|keys|] == keys;
    SeenDistinct(seen, ws, keys);
    return None;
  }

  lemma NoRepeats(keys: seq<Id>, i: nat)
    requires i < |keys| && forall i, j :: 0 <= i < j < |keys| ==> Before(keys[i], keys[j])
    ensures keys[i] !in keys[..i]
  {
    BeforeIsTotal(keys[i], keys[i]);
  }

  lemma SeenMore(seen: map<Port, Id>, ws: map<Id, Workspace>, keys: seq<Id>, i: nat)
    requires i < |keys| && keys[i] in ws && keys[i] !in keys[..i] && Seen(seen, ws, keys[..i])
    ensures match ws[keys[i]].port
      case None => Seen(seen, ws, keys[..i + 1])
      case Some(p) =>
        if p in seen then Flawed(ws, SharedPort(seen[p], keys[i], p)) && !PortsDistinct(ws)
        else Seen(seen[p := keys[i]], ws, keys[..i + 1])
  {
    assert keys[..i + 1] == keys[..i] + [keys[i]];
  }

  lemma SeenDistinct(seen: map<Port, Id>, ws: map<Id, Workspace>, keys: seq<Id>)
    requires Seen(seen, ws, keys) && forall id :: id in ws ==> id in keys
    ensures PortsDistinct(ws)
  {
  }

  ghost function AllIn(used: seq<Port>): set<Port> {
    set p: Port | p in used
  }

  /** Probes from the base on, with an overflowing 16-bit counter; ends when some port is free. */
  method AllocatePort(used: seq<Port>) returns (candidate: Port)
    requires |used| < 65536
    ensures SomeFree(AllIn(used), 0) && candidate == FirstFree(AllIn(used), 0)
  {
    ghost var all := AllIn(used);
    FewIn(used);
    SomePortIsFree(all);
    candidate := BasePort;
    ghost var k := 0;
    while candidate in used
      invariant k < 65536 && candidate == Probe(k)
      invariant SomeFree(all, k) && FirstFree(all, 0) == FirstFree(all, k)
      decreases 65536 - k
    {
      NextProbe(all, k);
      candidate := (candidate + 1) % 65536;
      k := k + 1;
    }
  }

  /** A failed probe leads to the next one. */
  lemma NextProbe(all: set<Port>, k: nat)
    requires k < 65536 && SomeFree(all, k) && Probe(k) in all
    ensures k + 1 < 65536 && SomeFree(all, k + 1) && FirstFree(all, k) == FirstFree(all, k + 1)
    ensures Probe(k + 1) == (Probe(k) + 1) % 65536
  {
    assert forall j :: k <= j < 65536 && Probe(j) !in all ==> k + 1 <= j;
  }

  lemma {:induction false} FewIn(used: seq<Port>)
    ensures |AllIn(used)| <= |used|
  {
    if used == [] {
      assert AllIn(used) == {};
    } else {
      FewIn(used[1..]);
      assert AllIn(used) == AllIn(used[1..]) + {used[0]};
    }
  }

  /** `filter_map` of the ports over the map, in the order of ids. */
  method UsedPorts(ws: map<Id, Workspace>) returns (used: seq<Port>)
    ensures AllIn(used) == Ports(ws) && |used| <= |ws|
  {
    used := [];
    var keys := Keys(ws);
    SortedKeysListThem(ws.Keys);
    KeysAreAsMany(ws.Keys);
    for i := 0 to |keys|
      invariant |used| <= i
      invariant forall p :: p in used <==> exists k :: 0 <= k < i && ws[keys[k]].port == Some(p)
    {
      if ws[keys[i]].port.Some? {
        used := used + [ws[keys[i]].port.value];
      }
    }
    forall p | p in Ports(ws) ensures p in used {
      var id :| id in ws && ws[id].port == Some(p);
      assert id in keys;
    }
  }

  lemma {:induction false} KeysAreAsMany(ids: set<Id>)
    ensures |SortedKeys(ids)| == |ids|
    decreases |ids|
  {
    if ids != {} {
      LeastExists(ids);
      var least := SortedKeys(ids)[0];
      assert SortedKeys(ids)[1..] == SortedKeys(ids - {least});
      KeysAreAsMany(ids - {least});
    }
  }

  method ReassignActive(removed: Id, history: seq<Id>, ws: map<Id, Workspace>) returns (active: Id)
    ensures active == Reassigned(removed, history, ws)
  {
    assert history[..|history|] == history;
    for i := |history| downto 0
      invariant LastFocused(history[..i], removed, ws) == LastFocused(history, removed, ws)
    {
      assert history[..i + 1][..i] == history[..i];
      if Candidate(history[i], removed, ws) {
        return history[i];
      }
    }
    var keys := Keys(ws);
    for i := 0 to |keys|
      invariant FirstOf(keys[i..], removed, ws) == FirstOf(keys, removed, ws)
    {
      if Candidate(keys[i], removed, ws) {
        return keys[i];
      }
      assert keys[i..][1..] == keys[i + 1..];
    }
    active := removed;
  }

  class Store {
    var disk: Disk

    constructor (disk: Disk)
      ensures this.disk == disk
    {
      this.disk := disk;
    }

    method Load() returns (r: Result<Config, Failure>)
      ensures r == Loaded(disk)
    {
      match disk {
        case Missing => return Err(ConfigMissing);
        case V1 => return Err(NotMigrated);
        case V2(c) =>
          var flaw := Validate(c);
          return if flaw.None? then Ok(c) else Err(Refused(Invalid));
      }
    }

    method SaveFile(c: Config) returns (failure: Option<Failure>)
      modifies this
      ensures Sound(c) ==> failure.None? && disk == V2(c)
      ensures !Sound(c) ==> failure == Some(Refused(Invalid)) && disk == old(disk)
    {
      var flaw := Validate(c);
      if flaw.Some? {
        return Some(Refused(Invalid));
      }
      disk := V2(c);
      failure := None;
    }

    method CreateWorkspace(id: Id, settings: map<string, string>) returns (failure: Option<Failure>)
      requires disk.V2? ==> |disk.config.workspaces| < 65536
      modifies this
      ensures !IsValidId(id) ==> failure == Some(Refused(IdInvalid)) && disk == old(disk)
      ensures Loaded(old(disk)).Ok? ==>
                Committed(old(disk), disk, failure, Create(old(disk).config, id, settings))
      ensures Loaded(old(disk)).Err? ==>
                && disk == old(disk)
                && failure == Some(if !IsValidId(id) then Refused(IdInvalid) else Loaded(old(disk)).error)
    {
      if !IsValidId(id) {
        return Some(Refused(IdInvalid));
      }
      var loaded := Load();
      if loaded.Err? {
        return Some(loaded.error);
      }
      var c := loaded.value;
      if id in c.workspaces {
        return Some(Refused(Exists(id)));
      }
      var used := UsedPorts(c.workspaces);
      var port := AllocatePort(used);
      var grown := c.(workspaces := c.workspaces[id := Workspace(true, Some(port), settings)]);
      assert Create(c, id, settings) == Workspaces.Save(grown);
      failure := SaveFile(grown);
    }

    method SetActiveWorkspace(id: Id) returns (failure: Option<Failure>)
      modifies this
      ensures Loaded(old(disk)).Ok? ==> Committed(old(disk), disk, failure, SetActive(old(disk).config, id))
      ensures Loaded(old(disk)).Err? ==> disk == old(disk) && failure == Some(Loaded(old(disk)).error)
    {
      var loaded := Load();
      if loaded.Err? {
        return Some(loaded.error);
      }
      if id !in loaded.value.workspaces {
        return Some(Refused(Unknown(id)));
      }
      failure := SaveFile(loaded.value.(active := id));
    }

    method SetWorkspaceEnabled(id: Id, enabled: bool, windowOpen: bool, history: seq<Id>)
        returns (failure: Option<Failure>)
      modifies this
      ensures Loaded(old(disk)).Ok? ==>
                Committed(old(disk), disk, failure, SetEnabled(old(disk).config, id, enabled, windowOpen, history))
      ensures Loaded(old(disk)).Err? ==>
                && disk == old(disk)
                && failure == Some(if !enabled && windowOpen then Refused(WindowOpen) else Loaded(old(disk)).error)
    {
      if !enabled && windowOpen {
        return Some(Refused(WindowOpen));
      }
      var loaded := Load();
      if loaded.Err? {
        return Some(loaded.error);
      }
      var c := loaded.value;
      if id !in c.workspaces {
        return Some(Refused(Unknown(id)));
      }
      var ws := c.workspaces[id := c.workspaces[id].(enabled := enabled)];
      var active := c.active;
      if !enabled && active == id {
        active := ReassignActive(id, history, ws);
      }
      failure := SaveFile(c.(workspaces := ws, active := active));
    }

    method DeleteWorkspace(id: Id, windowOpen: bool, history: seq<Id>) returns (failure: Option<Failure>)
      modifies this
      ensures Loaded(old(disk)).Ok? ==>
                Committed(old(disk), disk, failure, Delete(old(disk).config, id, windowOpen, history))
      ensures Loaded(old(disk)).Err? ==>
                && disk == old(disk)
                && failure == Some(if windowOpen then Refused(WindowOpen) else Loaded(old(disk)).error)
    {
      if windowOpen {
        return Some(Refused(WindowOpen));
      }
      var loaded := Load();
      if loaded.Err? {
        return Some(loaded.error);
      }
      var c := loaded.value;
      if |c.workspaces| == 1 {
        return Some(Refused(Last));
      }
      if id !in c.workspaces {
        return Some(Refused(Unknown(id)));
      }
      var ws := c.workspaces - {id};
      var active := c.active;
      if active == id {
        active := ReassignActive(id, history, ws);
      }
      failure := SaveFile(c.(workspaces := ws, active := active));
    }

    /** A failure is logged by the caller and nothing else. */
    method PersistOpenWindows(quitting: bool, open: seq<Id>, history: seq<Id>) returns (failure: Option<Failure>)
      modifies this
      ensures quitting ==> disk == old(disk) && failure.None?
      ensures !quitting && Loaded(old(disk)).Ok? ==>
                Committed(old(disk), disk, failure, Persist(old(disk).config, open, history))
      ensures !quitting && Loaded(old(disk)).Err? ==>
                && disk == old(disk)
                && failure == Some(Loaded(old(disk)).error)
    {
      if quitting {
        return None;
      }
      var loaded := Load();
      if loaded.Err? {
        return Some(loaded.error);
      }
      var c := loaded.value.(openWindows := open);
      if history != [] {
        c := c.(active := history[|history| - 1]);
      }
      failure := SaveFile(c);
    }
  }
}
