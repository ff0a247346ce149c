/**
 The code of the migration: `apply_migration_files`, `migrate_turso_token_to_keychain` and
 `migrate_to_workspaces`, proved to be the attempt `Migration` reasons about.
 */
module MigrationRun {
  import opened Wrappers
  import opened Workspaces
  import opened Migration

  class Device {
    var config: ConfigFile
    var files: map<string, string>
    var moved: map<string, string>
    var legacy: map<string, Secret>
    var target: map<string, Secret>
    /** What lies ahead: how each of the next steps goes. The attempt is cut where it ends. */
    var fate: seq<bool>

    ghost function View(): World reads this {
      World(config, files, moved, legacy, target)
    }

    constructor (world: World, fate: seq<bool>)
      ensures View() == world && this.fate == fate
    {
      config, files, moved, legacy, target := world.config, world.files, world.moved, world.legacy, world.target;
      this.fate := fate;
    }

    /** One step of the outside world: `alive` unless the attempt is cut here. */
    method Step() returns (alive: bool, ok: bool)
      modifies this`fate
      ensures alive <==> old(fate) != []
      ensures alive ==> ok == old(fate)[0] && fate == old(fate)[1..]
      ensures !alive ==> fate == old(fate)
    {
      if fate == [] {
        return false, false;
      }
      ok, fate := fate[0], fate[1..];
      alive := true;
    }

    method ApplyMigrationFiles(ghost flat: Flat, ghost id: Id) returns (goesOn: bool)
      modifies this
      ensures Execute(old(View()), 0, old(fate), flat, id) ==
              if goesOn then Execute(View(), 4, fate, flat, id) else View()
      ensures config == old(config)
    {
      for i := 0 to |DbFiles|
        invariant Execute(old(View()), 0, old(fate), flat, id) == Execute(View(), i, fate, flat, id)
        invariant config == old(config)
      {
        var name := DbFiles[i];
        FileAt(i);
        var alive, ok := Step();
        if !alive {
          return false;
        }
        if name !in files {
          continue;
        }
        if name in moved || !ok {
          return false;
        }
        moved, files := moved[name := files[name]], files - {name};
      }
      goesOn := true;
    }

    method MigrateTokenToKeychain(ghost flat: Flat, ghost id: Id) returns (goesOn: bool)
      modifies this
      ensures Execute(old(View()), 4, old(fate), flat, id) ==
              if goesOn then Execute(View(), 6, fate, flat, id) else View()
      ensures FlatOf(config) == FlatOf(old(config)) && (config.V2? <==> old(config).V2?)
    {
      assert Program[4] == SetToken && Program[5] == StripToken;
      ghost var w := View();
      var alive, ok := Step();
      if !alive {
        return false;
      }
      if config.V1? && config.token.Some? {
        var token := config.token.value;
        if token != "" && Turso !in legacy {
          if !ok {
            return true;
          }
          legacy := legacy[Turso := token];
        }
      }
      assert View() == Effect(w, SetToken, ok, flat, id);
      alive, ok := Step();
      if !alive {
        return false;
      }
      if config.V1? && config.token.Some? && ok {
        config := config.(token := None);
      }
      goesOn := true;
    }

    method MoveSecrets(ghost flat: Flat, ghost id: Id) returns (goesOn: bool)
      modifies this
      ensures Execute(old(View()), 6, old(fate), flat, id) ==
              if goesOn then Execute(View(), 16, fate, flat, id) else View()
      ensures config == old(config)
    {
      for k := 0 to |Bases|
        invariant Execute(old(View()), 6, old(fate), flat, id) == Execute(View(), 6 + 2 * k, fate, flat, id)
        invariant config == old(config)
      {
        goesOn := MoveSecret(k, flat, id);
        if !goesOn {
          return;
        }
      }
      goesOn := true;
    }

    method MoveSecret(k: nat, ghost flat: Flat, ghost id: Id) returns (goesOn: bool)
      requires k < |Bases|
      modifies this
      ensures Execute(old(View()), 6 + 2 * k, old(fate), flat, id) ==
              if goesOn then Execute(View(), 8 + 2 * k, fate, flat, id) else View()
      ensures config == old(config)
    {
      var base := Bases[k];
      BaseAt(k);
      goesOn := CopySecret(base, 6 + 2 * k, flat, id);
      if goesOn {
        goesOn := DeleteSecret(base, 7 + 2 * k, flat, id);
      }
    }

    method CopySecret(base: string, ghost pc: nat, ghost flat: Flat, ghost id: Id) returns (goesOn: bool)
      requires pc < |Program| && Program[pc] == Copy(base)
      modifies this`fate, this`target
      ensures Execute(old(View()), pc, old(fate), flat, id) ==
              if goesOn then Execute(View(), pc + 1, fate, flat, id) else View()
    {
      var alive, ok := Step();
      if !alive {
        return false;
      }
      if base in legacy && base !in target {
        if !ok {
          return false;
        }
        target := target[base := legacy[base]];
      }
      goesOn := true;
    }

    method DeleteSecret(base: string, ghost pc: nat, ghost flat: Flat, ghost id: Id) returns (goesOn: bool)
      requires pc < |Program| && Program[pc] == Delete(base)
      modifies this`fate, this`legacy
      ensures Execute(old(View()), pc, old(fate), flat, id) ==
              if goesOn then Execute(View(), pc + 1, fate, flat, id) else View()
    {
      var alive, ok := Step();
      if !alive {
        return false;
      }
      if ok {
        legacy := legacy - {base};
      }
      goesOn := true;
    }

    /** `id` has been checked to be valid. */
    method MigrateToWorkspaces(id: Id) returns (completed: bool)
      requires IsValidId(id)
      modifies this
      ensures View() == Attempt(old(View()), old(fate), id)
      ensures completed <==> config.V2?
    {
      if config.V2? {
        return true;
      }
      var flat := FlatOf(config);
      var goesOn := ApplyMigrationFiles(flat, id);
      if !goesOn {
        return false;
      }
      goesOn := MigrateTokenToKeychain(flat, id);
      if !goesOn {
        return false;
      }
      goesOn := MoveSecrets(flat, id);
      if !goesOn {
        return false;
      }
      assert Program[16] == SaveFile;
      var alive, ok := Step();
      completed := alive && ok;
      if completed {
        config := V2(MigratedConfig(flat, id));
      }
    }
  }
}
