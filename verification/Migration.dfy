/**
 The one-shot migration of apps/desktop/src/lib.rs, 1164-1291, and apps/desktop/src/workspace.rs,
 203-220 and 274-290, to one workspace: database files, Keychain secrets, then config.json. An attempt
 is a run of single steps, each going well or not, and may be cut after any of them.
 */
module Migration {
  import opened Wrappers
  import opened Workspaces

  /** An account that holds the empty string counts as absent. */
  type Secret = s: string | s != "" witness "x"

  /** What of the flat file the new one keeps. */
  datatype Flat = Flat(settings: map<string, string>, port: Option<Port>)

  /** `token` is the plaintext field; one that is no string counts as empty. */
  datatype ConfigFile = Missing | V1(flat: Flat, token: Option<string>) | V2(config: Config)

  /** The files in the data directory and in the workspace's, the accounts without and with its suffix. */
  datatype World = World(
    config: ConfigFile, files: map<string, string>, moved: map<string, string>,
    legacy: map<string, Secret>, target: map<string, Secret>)

  datatype Op = MoveFile(name: string) | SetToken | StripToken | Copy(base: string) | Delete(base: string) | SaveFile

  const Turso := "turso_auth_token"

  const DbFiles := ["portuni.db", "portuni.db-wal", "portuni.db-shm", "portuni.db-journal"]

  const Bases := [Turso, "mcp_auth_token", "google_refresh_token", "portuni_session_jwt", "portuni_device_token"]

  const Program: seq<Op> := [
    MoveFile(DbFiles[0]), MoveFile(DbFiles[1]), MoveFile(DbFiles[2]), MoveFile(DbFiles[3]),
    SetToken, StripToken,
    Copy(Bases[0]), Delete(Bases[0]), Copy(Bases[1]), Delete(Bases[1]), Copy(Bases[2]), Delete(Bases[2]),
    Copy(Bases[3]), Delete(Bases[3]), Copy(Bases[4]), Delete(Bases[4]),
    SaveFile]

  ghost predicate Known(w: World) {
    w.files.Keys <= (set name | name in DbFiles) && w.legacy.Keys <= (set base | base in Bases)
  }

  function FlatOf(config: ConfigFile): Flat {
    if config.V1? then config.flat else Flat(map[], None)
  }

  function MigratedConfig(flat: Flat, id: Id): Config {
    Config(id, map[id := Workspace(true, Some(if flat.port.Some? then flat.port.value else BasePort),
                                   flat.settings["mcp_server_name" := "portuni"])], [])
  }

  /** The plaintext token, when there is one to save. */
  predicate HasToken(w: World) {
    w.config.V1? && w.config.token.Some? && w.config.token.value != ""
  }

  predicate NeedsToken(w: World) {
    HasToken(w) && Turso !in w.legacy
  }

  /** What one step makes of the world; a step that fails changes nothing. */
  function Effect(w: World, op: Op, ok: bool, flat: Flat, id: Id): World {
    if !ok then w else
    match op
    case MoveFile(name) =>
      if name in w.files && name !in w.moved
      then w.(files := w.files - {name}, moved := w.moved[name := w.files[name]])
      else w
    case SetToken => if NeedsToken(w) then w.(legacy := w.legacy[Turso := w.config.token.value]) else w
    case StripToken => if w.config.V1? then w.(config := w.config.(token := None)) else w
    case Copy(base) =>
      if base in w.legacy && base !in w.target then w.(target := w.target[base := w.legacy[base]]) else w
    case Delete(base) => w.(legacy := w.legacy - {base})
    case SaveFile => w.(config := V2(MigratedConfig(flat, id)))
  }

  /** Whether the attempt is over after the step: an error, or the completion marker. */
  predicate Ends(w: World, op: Op, ok: bool) {
    match op
    case MoveFile(name) => name in w.files && (name in w.moved || !ok)
    case Copy(base) => base in w.legacy && base !in w.target && !ok
    case SaveFile => true
    case _ => false
  }

  /** A token that could not be saved is not stripped either. */
  function NextPc(w: World, pc: nat, ok: bool): nat
    requires pc < |Program|
  {
    if Program[pc] == SetToken && NeedsToken(w) && !ok then pc + 2 else pc + 1
  }

  /** The steps from `pc` on, as many as `oks` has entries: how each of them went. */
  function Execute(w: World, pc: nat, oks: seq<bool>, flat: Flat, id: Id): World
    decreases |oks|
  {
    if oks == [] || pc >= |Program| then w
    else
      var w' := Effect(w, Program[pc], oks[0], flat, id);
      if Ends(w, Program[pc], oks[0]) then w' else Execute(w', NextPc(w, pc, oks[0]), oks[1..], flat, id)
  }

  lemma FileAt(k: nat)
    requires k < |DbFiles|
    ensures |DbFiles| == 4 && Program[k] == MoveFile(DbFiles[k])
  {
  }

  lemma BaseAt(k: nat)
    requires k < |Bases|
    ensures |Bases| == 5 && Program[6 + 2 * k] == Copy(Bases[k]) && Program[7 + 2 * k] == Delete(Bases[k])
  {
  }

  function Attempt(w: World, oks: seq<bool>, id: Id): World {
    if w.config.V2? then w else Execute(w, 0, oks, FlatOf(w.config), id)
  }

  function Attempts(w: World, attempts: seq<seq<bool>>, id: Id): World {
    if attempts == [] then w
    else Attempt(Attempts(w, attempts[..|attempts| - 1], id), attempts[|attempts| - 1], id)
  }

  // -------- Where a migration goes

  ghost predicate NoConflict(w: World) {
    w.files.Keys !! w.moved.Keys
  }

  /** A secret: the account itself, else the one without suffix, else the plaintext token. */
  function Lookup(w: World, base: string): Option<Secret> {
    if base in w.target then Some(w.target[base])
    else if base in w.legacy then Some(w.legacy[base])
    else if base == Turso && HasToken(w) then Some(w.config.token.value)
    else None
  }

  function Gathered(w: World): map<string, Secret> {
    map base | base in w.target.Keys + w.legacy.Keys + {Turso} && Lookup(w, base).Some? :: Lookup(w, base).value
  }

  lemma GatheredSame(w: World, w': World)
    requires forall base :: Lookup(w, base) == Lookup(w', base)
    ensures Gathered(w) == Gathered(w')
  {
    forall base
      ensures base in Gathered(w) <==> Lookup(w, base).Some?
      ensures base in Gathered(w') <==> Lookup(w', base).Some?
    {
    }
  }

  /** The world a migration is to reach. */
  function Final(w: World, id: Id): World {
    if w.config.V2? then w
    else World(V2(MigratedConfig(FlatOf(w.config), id)), map[], w.moved + w.files, map[], Gathered(w))
  }

  /** The step has nothing left to do. */
  predicate Done(w: World, op: Op) {
    match op
    case MoveFile(name) => name !in w.files
    case SetToken => !NeedsToken(w)
    case StripToken => w.config.V1? ==> w.config.token.None?
    case Copy(base) => base in w.legacy ==> base in w.target
    case Delete(base) => base !in w.legacy
    case SaveFile => w.config.V2?
  }

  /** Everything before `pc` is done, and the file is still the flat one. */
  ghost predicate Upto(w: World, pc: nat, flat: Flat) {
    && pc <= |Program| && Known(w) && NoConflict(w)
    && !w.config.V2? && flat == FlatOf(w.config)
    && (forall i :: 0 <= i < pc ==> Done(w, Program[i]))
    && (pc > 5 ==> !HasToken(w))
  }

  /** A failure that the attempt passes over. */
  predicate Silent(op: Op) {
    op.SetToken? || op.StripToken? || op.Delete?
  }

  function Rank(op: Op): nat {
    match op
    case MoveFile(_) => 0
    case SetToken => 1
    case StripToken => 2
    case Copy(_) => 3
    case Delete(_) => 3
    case SaveFile => 4
  }

  lemma ProgramIsOrdered(i: nat, j: nat)
    requires i < j < |Program|
    ensures Rank(Program[i]) <= Rank(Program[j])
    ensures Rank(Program[j]) > 2 ==> j > 5
    ensures Program[j].StripToken? ==> j == 5
    ensures Program[j].Delete? ==> Program[j - 1] == Copy(Program[j].base)
  {
  }

  lemma MoveKeepsFinal(w: World, name: string, flat: Flat, id: Id)
    requires !w.config.V2? && NoConflict(w)
    ensures Final(Effect(w, MoveFile(name), true, flat, id), id) == Final(w, id)
  {
    var w' := Effect(w, MoveFile(name), true, flat, id);
    assert w'.moved + w'.files == w.moved + w.files;
    GatheredSame(w', w);
  }

  lemma OpKeepsGathered(w: World, op: Op, flat: Flat, id: Id)
    requires !w.config.V2? && !op.MoveFile? && !op.SaveFile?
    requires op.StripToken? ==> Done(w, SetToken)
    requires op.Delete? ==> Done(w, Copy(op.base))
    ensures Gathered(Effect(w, op, true, flat, id)) == Gathered(w)
  {
    GatheredSame(Effect(w, op, true, flat, id), w);
  }

  lemma OpKeepsFinal(w: World, op: Op, flat: Flat, id: Id)
    requires !w.config.V2? && NoConflict(w) && !op.SaveFile?
    requires op.StripToken? ==> Done(w, SetToken)
    requires op.Delete? ==> Done(w, Copy(op.base))
    ensures Final(Effect(w, op, true, flat, id), id) == Final(w, id)
  {
    if op.MoveFile? {
      MoveKeepsFinal(w, op.name, flat, id);
    } else {
      OpKeepsGathered(w, op, flat, id);
    }
  }

  lemma OpKeepsDone(w: World, op: Op, ok: bool, flat: Flat, id: Id, before: Op)
    requires Done(w, before) && Rank(before) <= Rank(op) && (Rank(op) > 2 ==> !HasToken(w))
    ensures Done(Effect(w, op, ok, flat, id), before)
  {
  }

  lemma OpIsDone(w: World, op: Op, ok: bool, flat: Flat, id: Id)
    requires NoConflict(w) && (Silent(op) ==> ok) && !op.SaveFile? && !Ends(w, op, ok)
    ensures Done(Effect(w, op, ok, flat, id), op)
  {
  }

  lemma OpKeepsWorld(w: World, op: Op, ok: bool, flat: Flat, id: Id)
    requires Known(w) && NoConflict(w) && !w.config.V2? && flat == FlatOf(w.config) && !op.SaveFile?
    ensures var w' := Effect(w, op, ok, flat, id);
      && Known(w') && NoConflict(w') && !w'.config.V2? && flat == FlatOf(w'.config)
      && (HasToken(w') ==> HasToken(w)) && (op.StripToken? && ok ==> !HasToken(w'))
  {
  }

  /** One step of an attempt leads to the same end. */
  lemma StepKeeps(w: World, pc: nat, ok: bool, flat: Flat, id: Id)
    requires pc < |Program| && Upto(w, pc, flat) && (Silent(Program[pc]) ==> ok) && !Program[pc].SaveFile?
    ensures var w' := Effect(w, Program[pc], ok, flat, id);
      && Final(w', id) == Final(w, id) && NextPc(w, pc, ok) == pc + 1
      && (if Ends(w, Program[pc], ok) then Upto(w', 0, flat) else Upto(w', pc + 1, flat))
  {
    var op, w' := Program[pc], Effect(w, Program[pc], ok, flat, id);
    OpKeepsWorld(w, op, ok, flat, id);
    if ok {
      if pc > 0 {
        ProgramIsOrdered(pc - 1, pc);
        assert Done(w, Program[pc - 1]);
      }
      OpKeepsFinal(w, op, flat, id);
    }
    if !Ends(w, op, ok) {
      forall i | 0 <= i < pc + 1 ensures Done(w', Program[i]) {
        if i < pc {
          ProgramIsOrdered(i, pc);
          OpKeepsDone(w, op, ok, flat, id, Program[i]);
        } else {
          OpIsDone(w, op, ok, flat, id);
        }
      }
    }
  }
}
