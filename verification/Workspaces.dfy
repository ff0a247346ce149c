/**
 The workspaces of config.json, apps/desktop/src/workspace.rs, and the commands of
 apps/desktop/src/lib.rs that change them. Strings are compared by character, which for the valid ids
 is the byte order of the source's BTreeMap.
 */
module Workspaces {
  import opened Wrappers

  type Id = string

  /** An unsigned 16-bit number. */
  type Port = p: int | 0 <= p < 65536

  const BasePort: Port := 47011

  /** `settings` are the fields no command here looks at. */
  datatype Workspace = Workspace(enabled: bool, port: Option<Port>, settings: map<string, string>)

  datatype Config = Config(active: Id, workspaces: map<Id, Workspace>, openWindows: seq<Id>)

  datatype Error =
    | Invalid | IdInvalid | Exists(id: Id) | Unknown(id: Id) | Disabled(id: Id) | WindowOpen | Last

  predicate Lowercase(c: char) { 'a' <= c <= 'z' }

  predicate IdChar(c: char) { Lowercase(c) || '0' <= c <= '9' || c == '-' }

  predicate IsValidId(id: Id) {
    && 1 <= |id| <= 32
    && Lowercase(id[0])
    && forall i :: 0 <= i < |id| ==> IdChar(id[i])
  }

  ghost predicate PortsDistinct(ws: map<Id, Workspace>) {
    forall a, b :: a in ws && b in ws && a != b && ws[a].port.Some? ==> ws[a].port != ws[b].port
  }

  /** What `validate` demands of a file. */
  ghost predicate Sound(c: Config) {
    && c.active in c.workspaces
    && (forall id :: id in c.workspaces ==> IsValidId(id))
    && PortsDistinct(c.workspaces)
  }

  // -------- The order of ids

  predicate Before(a: Id, b: Id) {
    b != [] && (a == [] || a[0] < b[0] || (a[0] == b[0] && Before(a[1..], b[1..])))
  }

  lemma {:induction false} BeforeIsTotal(a: Id, b: Id)
    ensures a == b || Before(a, b) || Before(b, a)
    ensures !(Before(a, b) && Before(b, a)) && !Before(a, a)
  {
    if a != [] && b != [] {
      BeforeIsTotal(a[1..], b[1..]);
      assert a == [a[0]] + a[1..] && b == [b[0]] + b[1..];
    }
    if a != [] {
      BeforeIsTotal(a[1..], a[1..]);
    }
  }

  lemma {:induction false} BeforeIsTransitive(a: Id, b: Id, c: Id)
    requires Before(a, b) && Before(b, c)
    ensures Before(a, c)
  {
    if a != [] && a[0] == b[0] && b[0] == c[0] {
      BeforeIsTransitive(a[1..], b[1..], c[1..]);
    }
  }

  ghost predicate IsLeast(id: Id, ids: set<Id>) {
    id in ids && forall other :: other in ids && other != id ==> Before(id, other)
  }

  lemma {:induction false} LeastExists(ids: set<Id>)
    requires ids != {}
    ensures exists id :: IsLeast(id, ids)
    decreases |ids|
  {
    var x :| x in ids;
    if ids - {x} == {} {
      assert ids == {x};
      assert IsLeast(x, ids);
    } else {
      LeastExists(ids - {x});
      var y :| IsLeast(y, ids - {x});
      BeforeIsTotal(x, y);
      var least := if Before(x, y) then x else y;
      forall other | other in ids && other != least ensures Before(least, other) {
        if least == x && other != y { BeforeIsTransitive(x, y, other); }
      }
      assert IsLeast(least, ids);
    }
  }

  /** The order in which the map is gone through. */
  ghost function SortedKeys(ids: set<Id>): seq<Id>
    decreases |ids|
  {
    if ids == {} then [] else
    LeastExists(ids);
    var least :| IsLeast(least, ids);
    [least] + SortedKeys(ids - {least})
  }

  lemma {:induction false} SortedKeysListThem(ids: set<Id>)
    ensures var keys := SortedKeys(ids);
      && (forall id :: id in keys <==> id in ids)
      && (forall i, j :: 0 <= i < j < |keys| ==> Before(keys[i], keys[j]))
    decreases |ids|
  {
    if ids != {} {
      LeastExists(ids);
      var keys := SortedKeys(ids);
      var least := keys[0];
      assert IsLeast(least, ids) && keys[1..] == SortedKeys(ids - {least});
      SortedKeysListThem(ids - {least});
      forall i, j | 0 <= i < j < |keys| ensures Before(keys[i], keys[j]) {
        assert keys[j] == keys[1..][j - 1] && keys[j] in keys[1..] && keys[j] in ids - {least};
        if i > 0 { assert keys[i] == keys[1..][i - 1]; }
      }
      assert forall id :: id in keys <==> id == least || id in keys[1..];
    }
  }

  // -------- The ports

  /** The k-th port looked at: counting up from the base, an overflow starting over from 0. */
  function Probe(k: nat): Port {
    (BasePort + k) % 65536
  }

  ghost predicate SomeFree(used: set<Port>, k: nat) {
    exists j :: k <= j < 65536 && Probe(j) !in used
  }

  ghost function FirstFree(used: set<Port>, k: nat): Port
    requires SomeFree(used, k)
    decreases 65536 - k
  {
    if Probe(k) !in used then Probe(k) else
    assert forall j :: k <= j < 65536 && Probe(j) !in used ==> k + 1 <= j;
    FirstFree(used, k + 1)
  }

  ghost function Probes(k: nat): set<Port> {
    set j | 0 <= j < k :: Probe(j)
  }

  lemma OneMoreProbe(k: nat)
    requires k < 65536
    ensures Probes(k + 1) == Probes(k) + {Probe(k)} && Probe(k) !in Probes(k)
  {
    forall j | 0 <= j < k ensures Probe(j) != Probe(k) {
    }
  }

  lemma {:induction false} ProbesAreMany(k: nat)
    requires k <= 65536
    ensures |Probes(k)| == k
  {
    if k > 0 {
      ProbesAreMany(k - 1);
      OneMoreProbe(k - 1);
    } else {
      assert Probes(0) == {};
    }
  }

  lemma {:induction false} SmallerThan(a: set<Port>, b: set<Port>)
    requires a <= b
    ensures |a| <= |b|
  {
    if a != {} {
      var x :| x in a;
      SmallerThan(a - {x}, b - {x});
    }
  }

  /** By pigeonhole, no more probes fail than there are ports in use. */
  lemma FailedProbes(used: set<Port>, k: nat)
    requires k <= 65536 && forall j :: 0 <= j < k ==> Probe(j) in used
    ensures k <= |used|
  {
    ProbesAreMany(k);
    SmallerThan(Probes(k), used);
  }

  lemma SomePortIsFree(used: set<Port>)
    requires |used| < 65536
    ensures SomeFree(used, 0)
  {
    if !SomeFree(used, 0) {
      FailedProbes(used, 65536);
    }
  }

  /** The first free port comes within `|used| + 1` probes. */
  lemma {:induction false} FirstFreeWithin(used: set<Port>, k: nat) returns (n: nat)
    requires k <= 65536 && SomeFree(used, k)
    requires forall j :: 0 <= j < k ==> Probe(j) in used
    ensures k <= n <= |used| && n < 65536
    ensures FirstFree(used, k) == Probe(n) && Probe(n) !in used
    ensures forall j :: 0 <= j < n ==> Probe(j) in used
    decreases 65536 - k
  {
    if Probe(k) !in used {
      n := k;
      FailedProbes(used, k);
    } else {
      assert forall j :: k <= j < 65536 && Probe(j) !in used ==> k + 1 <= j;
      n := FirstFreeWithin(used, k + 1);
    }
  }

  /** The least free port from the base on. */
  ghost predicate LeastFromBase(used: set<Port>, port: Port) {
    BasePort <= port && port !in used && forall p: Port :: BasePort <= p < port ==> p in used
  }

  /**
   The port is free. It is the least free one from the base on exactly if there is one from there on, and
   then the count does not overflow; with at most 18524 ports in use there is.
   */
  lemma AllocatedPort(used: set<Port>)
    requires |used| < 65536
    ensures SomeFree(used, 0) && FirstFree(used, 0) !in used
    ensures LeastFromBase(used, FirstFree(used, 0)) <==> exists p: Port :: BasePort <= p && p !in used
    ensures |used| <= 18524 ==> LeastFromBase(used, FirstFree(used, 0)) && FirstFree(used, 0) <= BasePort + |used|
  {
    SomePortIsFree(used);
    var n := FirstFreeWithin(used, 0);
    FirstProbeIsLeast(used, n);
  }

  lemma ProbeIs(p: Port)
    requires BasePort <= p
    ensures p == Probe(p - BasePort)
  {
  }

  lemma FirstProbeIsLeast(used: set<Port>, n: nat)
    requires n < 65536 && Probe(n) !in used && forall j :: 0 <= j < n ==> Probe(j) in used
    ensures LeastFromBase(used, Probe(n)) <==> exists p: Port :: BasePort <= p && p !in used
    ensures n <= 18524 ==> LeastFromBase(used, Probe(n)) && Probe(n) == BasePort + n
  {
    forall p: Port | BasePort <= p ensures p !in used ==> n <= p - BasePort {
      ProbeIs(p);
    }
    if n <= 18524 {
      assert Probe(n) == BasePort + n;
    } else {
      assert forall p: Port :: BasePort <= p ==> p in used;
    }
  }

  /**
   With all ports from the base on in use, the count overflows to port 0 in a release build; a build with
   overflow checks panics there instead.
   */
  lemma AllocationOverflows(used: set<Port>)
    requires forall p: Port :: p in used <==> BasePort <= p
    ensures |used| == 18525 && SomeFree(used, 0) && FirstFree(used, 0) == 0
  {
    ProbesAreMany(18525);
    forall p: Port | p in used ensures p in Probes(18525) {
      assert p == Probe(p - BasePort);
    }
    assert used == Probes(18525);
    SomePortIsFree(used);
    var n := FirstFreeWithin(used, 0);
    assert Probe(18525) == 0;
    assert Probe(18525) !in used && (n < 18525 ==> Probe(n) in used);
  }

  ghost function Ports(ws: map<Id, Workspace>): set<Port> {
    set id | id in ws && ws[id].port.Some? :: ws[id].port.value
  }

  lemma {:induction false} FewPorts(ws: map<Id, Workspace>)
    ensures |Ports(ws)| <= |ws|
    decreases |ws|
  {
    if ws != map[] {
      var id :| id in ws;
      var rest := ws - {id};
      FewPorts(rest);
      assert |rest| == |ws| - 1 by { assert rest.Keys == ws.Keys - {id}; }
      var one := if ws[id].port.Some? then {ws[id].port.value} else {};
      forall p | p in Ports(ws) ensures p in Ports(rest) + one {
        var other :| other in ws && ws[other].port == Some(p);
        assert other == id || (other in rest && rest[other] == ws[other]);
      }
      SmallerThan(Ports(ws), Ports(rest) + one);
    } else {
      assert Ports(ws) == {};
    }
  }

  // -------- The next active workspace

  predicate Candidate(id: Id, removed: Id, ws: map<Id, Workspace>) {
    id != removed && id in ws && ws[id].enabled
  }

  /** The last of them that may become active. */
  function LastFocused(history: seq<Id>, removed: Id, ws: map<Id, Workspace>): Option<Id> {
    if history == [] then None
    else if Candidate(history[|history| - 1], removed, ws) then Some(history[|history| - 1])
    else LastFocused(history[..|history| - 1], removed, ws)
  }

  /** The first of them that may become active. */
  function FirstOf(keys: seq<Id>, removed: Id, ws: map<Id, Workspace>): Option<Id> {
    if keys == [] then None
    else if Candidate(keys[0], removed, ws) then Some(keys[0])
    else FirstOf(keys[1..], removed, ws)
  }

  ghost function Reassigned(removed: Id, history: seq<Id>, ws: map<Id, Workspace>): Id {
    var focused, first := LastFocused(history, removed, ws), FirstOf(SortedKeys(ws.Keys), removed, ws);
    if focused.Some? then focused.value else if first.Some? then first.value else removed
  }

  lemma {:induction false} LastFocusedIs(history: seq<Id>, removed: Id, ws: map<Id, Workspace>)
    ensures match LastFocused(history, removed, ws)
      case None => forall i :: 0 <= i < |history| ==> !Candidate(history[i], removed, ws)
      case Some(id) => exists i :: 0 <= i < |history| && history[i] == id && Candidate(id, removed, ws)
                                   && forall j :: i < j < |history| ==> !Candidate(history[j], removed, ws)
  {
    var n := |history|;
    if n > 0 {
      var before := history[..n - 1];
      LastFocusedIs(before, removed, ws);
      if !Candidate(history[n - 1], removed, ws) && LastFocused(before, removed, ws).Some? {
        var id := LastFocused(before, removed, ws).value;
        var i :| 0 <= i < |before| && before[i] == id && Candidate(id, removed, ws)
                 && forall j :: i < j < |before| ==> !Candidate(before[j], removed, ws);
        forall j | i < j < |history| ensures !Candidate(history[j], removed, ws) {
          if j < n - 1 { assert before[j] == history[j]; }
        }
        assert history[i] == id;
      } else if LastFocused(before, removed, ws).None? {
        forall i | 0 <= i < n - 1 ensures !Candidate(history[i], removed, ws) {
          assert before[i] == history[i];
        }
      }
    }
  }

  lemma {:induction false} FirstOfIs(keys: seq<Id>, removed: Id, ws: map<Id, Workspace>)
    requires forall i, j :: 0 <= i < j < |keys| ==> Before(keys[i], keys[j])
    ensures match FirstOf(keys, removed, ws)
      case None => forall i :: 0 <= i < |keys| ==> !Candidate(keys[i], removed, ws)
      case Some(id) => Candidate(id, removed, ws)
                       && forall o :: o in keys && o != id && Candidate(o, removed, ws) ==> Before(id, o)
  {
    if keys != [] && !Candidate(keys[0], removed, ws) {
      FirstOfIs(keys[1..], removed, ws);
      assert forall o :: o in keys ==> o == keys[0] || o in keys[1..];
    }
  }

  /**
   `r` takes over for `removed`: the most recently focused enabled survivor; without one the first enabled
   in the order of ids; without any, the id itself.
   */
  ghost predicate Heir(r: Id, removed: Id, history: seq<Id>, ws: map<Id, Workspace>) {
    if exists i :: 0 <= i < |history| && Candidate(history[i], removed, ws)
    then exists i :: 0 <= i < |history| && history[i] == r && Candidate(r, removed, ws)
                     && forall j :: i < j < |history| ==> !Candidate(history[j], removed, ws)
    else if exists id :: Candidate(id, removed, ws)
    then Candidate(r, removed, ws) && forall o :: Candidate(o, removed, ws) && o != r ==> Before(r, o)
    else r == removed
  }

  lemma ReassignedIs(removed: Id, history: seq<Id>, ws: map<Id, Workspace>)
    ensures Heir(Reassigned(removed, history, ws), removed, history, ws)
  {
    SortedKeysListThem(ws.Keys);
    LastFocusedIs(history, removed, ws);
    FirstOfIs(SortedKeys(ws.Keys), removed, ws);
    if LastFocused(history, removed, ws).None? && FirstOf(SortedKeys(ws.Keys), removed, ws).None? {
      forall id | Candidate(id, removed, ws) ensures false {
        assert id in SortedKeys(ws.Keys);
      }
    }
  }

  // -------- The commands: the new file, or why nothing was written

  ghost function Save(c: Config): Result<Config, Error> {
    if Sound(c) then Ok(c) else Err(Invalid)
  }

  ghost function Create(c: Config, id: Id, settings: map<string, string>): Result<Config, Error>
    requires |c.workspaces| < 65536
  {
    if !IsValidId(id) then Err(IdInvalid)
    else if id in c.workspaces then Err(Exists(id))
    else
      FewPorts(c.workspaces);
      SomePortIsFree(Ports(c.workspaces));
      var created := Workspace(true, Some(FirstFree(Ports(c.workspaces), 0)), settings);
      Save(c.(workspaces := c.workspaces[id := created]))
  }

  ghost function SetActive(c: Config, id: Id): Result<Config, Error> {
    if id !in c.workspaces then Err(Unknown(id)) else Save(c.(active := id))
  }

  ghost function SetEnabled(c: Config, id: Id, enabled: bool, windowOpen: bool, history: seq<Id>): Result<Config, Error> {
    if !enabled && windowOpen then Err(WindowOpen)
    else if id !in c.workspaces then Err(Unknown(id))
    else
      var ws := c.workspaces[id := c.workspaces[id].(enabled := enabled)];
      var active := if !enabled && c.active == id then Reassigned(id, history, ws) else c.active;
      Save(c.(workspaces := ws, active := active))
  }

  ghost function Delete(c: Config, id: Id, windowOpen: bool, history: seq<Id>): Result<Config, Error> {
    if windowOpen then Err(WindowOpen)
    else if |c.workspaces| == 1 then Err(Last)
    else if id !in c.workspaces then Err(Unknown(id))
    else
      var ws := c.workspaces - {id};
      var active := if c.active == id then Reassigned(id, history, ws) else c.active;
      Save(c.(workspaces := ws, active := active))
  }

  ghost function Persist(c: Config, open: seq<Id>, history: seq<Id>): Result<Config, Error> {
    Save(c.(openWindows := open, active := if history == [] then c.active else history[|history| - 1]))
  }

  /** A workspace that stays keeps its port and settings, and its switch unless it is `switched`. */
  ghost predicate Stable(c: Config, c': Config, switched: Option<Id>) {
    forall id :: id in c.workspaces && id in c'.workspaces ==>
      && c'.workspaces[id].port == c.workspaces[id].port
      && c'.workspaces[id].settings == c.workspaces[id].settings
      && (switched != Some(id) ==> c'.workspaces[id].enabled == c.workspaces[id].enabled)
  }

  /** A new workspace is always saved, with a port no other one has; nothing else changes. */
  lemma CreateAdds(c: Config, id: Id, settings: map<string, string>)
    requires Sound(c) && |c.workspaces| < 65536
    ensures Create(c, id, settings).Ok? <==> IsValidId(id) && id !in c.workspaces
    ensures var r := Create(c, id, settings); r.Ok? ==>
      && Sound(r.value) && Stable(c, r.value, None)
      && r.value.workspaces.Keys == c.workspaces.Keys + {id}
      && r.value.active == c.active && r.value.openWindows == c.openWindows
      && r.value.workspaces[id].enabled && r.value.workspaces[id].settings == settings
      && r.value.workspaces[id].port.Some? && r.value.workspaces[id].port.value !in Ports(c.workspaces)
      && (|c.workspaces| <= 18524 ==>
            && BasePort <= r.value.workspaces[id].port.value
            && forall p: Port :: BasePort <= p < r.value.workspaces[id].port.value ==> p in Ports(c.workspaces))
  {
    if IsValidId(id) && id !in c.workspaces {
      FewPorts(c.workspaces);
      AllocatedPort(Ports(c.workspaces));
      var port := FirstFree(Ports(c.workspaces), 0);
      var ws := c.workspaces[id := Workspace(true, Some(port), settings)];
      forall a, b | a in ws && b in ws && a != b && ws[a].port.Some? ensures ws[a].port != ws[b].port {
        if a == id && ws[b].port.Some? { assert ws[b].port.value in Ports(c.workspaces); }
        if b == id { assert ws[a].port.value in Ports(c.workspaces); }
      }
      assert Sound(c.(workspaces := ws));
    }
  }

  /** Enabling and disabling never fails to save. A disabled active workspace hands over to its heir. */
  lemma SetEnabledSwitches(c: Config, id: Id, enabled: bool, windowOpen: bool, history: seq<Id>)
    requires Sound(c)
    ensures var r := SetEnabled(c, id, enabled, windowOpen, history);
      && (r.Ok? <==> id in c.workspaces && (enabled || !windowOpen))
      && (r.Ok? ==>
        && Sound(r.value) && Stable(c, r.value, Some(id)) && r.value.workspaces.Keys == c.workspaces.Keys
        && r.value.workspaces[id].enabled == enabled && r.value.openWindows == c.openWindows
        && (if !enabled && c.active == id then Heir(r.value.active, id, history, c.workspaces)
            else r.value.active == c.active))
  {
    if id in c.workspaces {
      var ws := c.workspaces[id := c.workspaces[id].(enabled := enabled)];
      var next := if !enabled && c.active == id then Reassigned(id, history, ws) else c.active;
      SuccessorIsKnown(c, id, enabled, history);
      SwitchIsSound(c, id, enabled, c.active);
      SwitchIsStable(c, id, enabled, next);
    }
  }

  /** Any known workspace can be made the active one, and nothing else changes. */
  lemma SetActiveIff(c: Config, id: Id)
    requires Sound(c)
    ensures var r := SetActive(c, id);
      && (r.Ok? <==> id in c.workspaces)
      && (r.Ok? ==> Sound(r.value) && r.value.active == id && r.value.workspaces == c.workspaces
                    && r.value.openWindows == c.openWindows)
  {
  }

  lemma SwitchIsStable(c: Config, id: Id, enabled: bool, active: Id)
    requires id in c.workspaces
    ensures var ws := c.workspaces[id := c.workspaces[id].(enabled := enabled)];
      Stable(c, c.(workspaces := ws, active := active), Some(id)) && ws.Keys == c.workspaces.Keys
  {
  }

  lemma SuccessorIsKnown(c: Config, id: Id, enabled: bool, history: seq<Id>)
    requires Sound(c) && id in c.workspaces
    ensures var ws := c.workspaces[id := c.workspaces[id].(enabled := enabled)];
      var next := Reassigned(id, history, ws);
      && Heir(next, id, history, c.workspaces)
      && Sound(c.(workspaces := ws, active := next))
  {
    var ws := c.workspaces[id := c.workspaces[id].(enabled := enabled)];
    SameCandidates(c, id, enabled);
    HeirAmongSame(id, history, c.workspaces, ws);
    SwitchIsSound(c, id, enabled, Reassigned(id, history, ws));
  }

  lemma SameCandidates(c: Config, id: Id, enabled: bool)
    requires id in c.workspaces
    ensures var ws := c.workspaces[id := c.workspaces[id].(enabled := enabled)];
      forall o :: Candidate(o, id, c.workspaces) <==> Candidate(o, id, ws)
  {
  }

  lemma SwitchIsSound(c: Config, id: Id, enabled: bool, active: Id)
    requires Sound(c) && id in c.workspaces && active in c.workspaces
    ensures Sound(c.(workspaces := c.workspaces[id := c.workspaces[id].(enabled := enabled)], active := active))
  {
    var ws := c.workspaces[id := c.workspaces[id].(enabled := enabled)];
    assert forall o :: o in ws ==> o in c.workspaces && ws[o].port == c.workspaces[o].port;
  }

  /** The heir is the same wherever the same others are enabled. */
  lemma HeirAmongSame(removed: Id, history: seq<Id>, was: map<Id, Workspace>, ws: map<Id, Workspace>)
    requires forall o :: Candidate(o, removed, ws) <==> Candidate(o, removed, was)
    ensures var r := Reassigned(removed, history, ws);
      Heir(r, removed, history, was) && (r == removed || Candidate(r, removed, was))
  {
    ReassignedIs(removed, history, ws);
  }

  /**
   Deletion is refused exactly for an open window, the last workspace, an unknown one, or the active one
   when no other is enabled: that last refusal comes from the check in `save`.
   */
  lemma DeleteRemovesIff(c: Config, id: Id, windowOpen: bool, history: seq<Id>)
    requires Sound(c)
    ensures var r := Delete(c, id, windowOpen, history);
      && (r.Ok? <==> !windowOpen && |c.workspaces| != 1 && id in c.workspaces
                     && (c.active == id ==> exists o :: Candidate(o, id, c.workspaces)))
      && (r.Ok? ==>
        && Sound(r.value) && r.value.workspaces == c.workspaces - {id} && r.value.openWindows == c.openWindows
        && (if c.active == id then Heir(r.value.active, id, history, c.workspaces) else r.value.active == c.active))
  {
    if id in c.workspaces {
      var ws := c.workspaces - {id};
      assert forall o :: Candidate(o, id, ws) <==> Candidate(o, id, c.workspaces);
      ReassignedIs(id, history, ws);
      HeirAmongSame(id, history, c.workspaces, ws);
      var r := Reassigned(id, history, ws);
      assert r == id || Candidate(r, id, ws);
      assert c.active == id && !(exists o :: Candidate(o, id, c.workspaces)) ==> r == id && r !in ws;
    }
  }

  /**
   Two workspaces of which the active one is the only one enabled: it cannot be deleted, although it is
   not the last one and its window is closed.
   */
  lemma OnlyEnabledOneStays(a: Id, b: Id, history: seq<Id>)
    requires IsValidId(a) && IsValidId(b) && a != b
    ensures
      var c := Config(a, map[a := Workspace(true, None, map[]), b := Workspace(false, None, map[])], []);
      Sound(c) && Delete(c, a, false, history) == Err(Invalid)
  {
    var c := Config(a, map[a := Workspace(true, None, map[]), b := Workspace(false, None, map[])], []);
    DeleteRemovesIff(c, a, false, history);
    assert c.workspaces.Keys == {a, b};
    assert |c.workspaces| == |c.workspaces.Keys| == 2;
  }

  /** The windows are saved exactly when the window focused last, if any, has a workspace. */
  lemma PersistSavesIff(c: Config, open: seq<Id>, history: seq<Id>)
    requires Sound(c)
    ensures Persist(c, open, history).Ok? <==> history == [] || history[|history| - 1] in c.workspaces
    ensures var r := Persist(c, open, history); r.Ok? ==>
      && Sound(r.value) && r.value.openWindows == open && r.value.workspaces == c.workspaces
      && r.value.active == if history == [] then c.active else history[|history| - 1]
  {
  }

  // -------- Names made from ids

  function EnvChar(c: char): char {
    if Lowercase(c) then 'A' + (c - 'a') else if c == '-' then '_' else c
  }

  function EnvName(id: Id): string {
    if id == [] then [] else [EnvChar(id[0])] + EnvName(id[1..])
  }

  function TokenEnvVar(id: Id): string {
    "PORTUNI_MCP_TOKEN_" + EnvName(id)
  }

  function KeychainAccount(base: string, id: Id): string {
    base + "." + id
  }

  lemma {:induction false} EnvNamesDiffer(a: Id, b: Id)
    requires forall i :: 0 <= i < |a| ==> IdChar(a[i])
    requires forall i :: 0 <= i < |b| ==> IdChar(b[i])
    requires EnvName(a) == EnvName(b)
    ensures a == b
  {
    if a != [] && b != [] {
      assert EnvName(a)[0] == EnvName(b)[0] && EnvName(a)[1..] == EnvName(b)[1..];
      EnvNamesDiffer(a[1..], b[1..]);
      assert a == [a[0]] + a[1..] && b == [b[0]] + b[1..];
    }
  }

  /** No two workspaces read their token from the same variable. */
  lemma TokenEnvVarsDiffer(a: Id, b: Id)
    requires IsValidId(a) && IsValidId(b) && a != b
    ensures TokenEnvVar(a) != TokenEnvVar(b)
  {
    if TokenEnvVar(a) == TokenEnvVar(b) {
      assert TokenEnvVar(a)[18..] == EnvName(a) && TokenEnvVar(b)[18..] == EnvName(b);
      EnvNamesDiffer(a, b);
    }
  }

  /** Nor do two secrets share an account, whatever the bases. */
  lemma KeychainAccountsDiffer(base: string, a: Id, other: string, b: Id)
    requires IsValidId(a) && IsValidId(b)
    requires KeychainAccount(base, a) == KeychainAccount(other, b)
    ensures base == other && a == b
  {
    AccountDots(base, a);
    AccountDots(other, b);
    assert |base| == |other|;
    var account := KeychainAccount(base, a);
    assert account[..|base|] == base && KeychainAccount(other, b)[..|base|] == other;
    assert account[|base| + 1..] == a && KeychainAccount(other, b)[|base| + 1..] == b;
  }

  lemma AccountDots(base: string, id: Id)
    requires IsValidId(id)
    ensures var account := KeychainAccount(base, id);
      account[|base|] == '.' && forall k :: |base| < k < |account| ==> account[k] != '.'
  {
    var account := KeychainAccount(base, id);
    forall k | |base| < k < |account| ensures account[k] != '.' {
      assert account[k] == id[k - |base| - 1];
    }
  }
}
