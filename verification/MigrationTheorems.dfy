/** What the migration guarantees however often it is cut, and what a failing Keychain can cost. */
module MigrationTheorems {
  import opened Wrappers
  import opened Workspaces
  import opened Migration

  ghost predicate NoSilentFrom(pc: nat, oks: seq<bool>) {
    forall i :: 0 <= i < |oks| && pc + i < |Program| && Silent(Program[pc + i]) ==> oks[i]
  }

  /** With everything done the completion marker makes the world the final one. */
  lemma SaveReaches(w: World, flat: Flat, id: Id)
    requires Upto(w, |Program| - 1, flat)
    ensures Effect(w, SaveFile, true, flat, id) == Final(w, id)
  {
    forall name | name in DbFiles ensures name !in w.files {
      var k :| 0 <= k < |DbFiles| && DbFiles[k] == name;
      assert Program[k] == MoveFile(DbFiles[k]) && Done(w, Program[k]);
    }
    assert w.files == map[];
    forall base | base in Bases ensures base !in w.legacy {
      var k :| 0 <= k < |Bases| && Bases[k] == base;
      assert Program[2 * k + 7] == Delete(Bases[k]) && Done(w, Program[2 * k + 7]);
    }
    assert w.legacy == map[];
    assert w.moved + w.files == w.moved;
    assert Gathered(w) == w.target;
  }

  lemma {:induction false} ExecuteConverges(w: World, pc: nat, oks: seq<bool>, flat: Flat, id: Id)
    requires Upto(w, pc, flat) && NoSilentFrom(pc, oks)
    ensures var w' := Execute(w, pc, oks, flat, id);
      && Final(w', id) == Final(w, id)
      && (if w'.config.V2? then w' == Final(w, id) else Upto(w', 0, flat))
      && (GetsThrough(pc, oks) ==> w'.config.V2?)
    decreases |oks|
  {
    if oks != [] && pc < |Program| {
      StepConverges(w, pc, oks, flat, id);
      var w' := Effect(w, Program[pc], oks[0], flat, id);
      if !Ends(w, Program[pc], oks[0]) {
        ExecuteConverges(w', pc + 1, oks[1..], flat, id);
      }
    }
  }

  /** From `pc` on nothing fails and nothing is cut. */
  predicate GetsThrough(pc: nat, oks: seq<bool>) {
    (forall i :: 0 <= i < |oks| ==> oks[i]) && |oks| + pc >= |Program| > pc
  }

  lemma StepConverges(w: World, pc: nat, oks: seq<bool>, flat: Flat, id: Id)
    requires Upto(w, pc, flat) && NoSilentFrom(pc, oks) && oks != [] && pc < |Program|
    ensures var w' := Effect(w, Program[pc], oks[0], flat, id);
      if Ends(w, Program[pc], oks[0]) then
        && (GetsThrough(pc, oks) ==> w'.config.V2?) && Final(w', id) == Final(w, id)
        && (if w'.config.V2? then w' == Final(w, id) else Upto(w', 0, flat))
      else
        && NextPc(w, pc, oks[0]) == pc + 1 && Upto(w', pc + 1, flat) && NoSilentFrom(pc + 1, oks[1..])
        && Final(w', id) == Final(w, id) && (GetsThrough(pc, oks) ==> GetsThrough(pc + 1, oks[1..]))
  {
    var op, ok := Program[pc], oks[0];
    assert Silent(op) ==> ok by { assert Program[pc + 0] == op; }
    if op.SaveFile? {
      assert pc == |Program| - 1;
      if ok { SaveReaches(w, flat, id); }
    } else {
      StepKeeps(w, pc, ok, flat, id);
      EndsOnlyOnFailure(w, op, ok);
      NoSilentTail(pc, oks);
      assert pc < |Program| - 1;
    }
  }

  lemma NoSilentTail(pc: nat, oks: seq<bool>)
    requires oks != [] && NoSilentFrom(pc, oks)
    ensures NoSilentFrom(pc + 1, oks[1..])
  {
    forall i | 0 <= i < |oks[1..]| && pc + 1 + i < |Program| && Silent(Program[pc + 1 + i]) ensures oks[1..][i] {
      assert Program[pc + (i + 1)] == Program[pc + 1 + i];
      assert oks[1..][i] == oks[i + 1];
    }
  }

  lemma EndsOnlyOnFailure(w: World, op: Op, ok: bool)
    requires NoConflict(w) && !op.SaveFile?
    ensures Ends(w, op, ok) ==> !ok
  {
  }

  /** What the step at `pc` relies on: a token is stripped, and an old account deleted, only when it is saved. */
  ghost predicate Prepared(w: World, pc: nat) {
    && (pc < |Program| && Program[pc].Delete? ==> Done(w, Copy(Program[pc].base)))
    && (pc < |Program| && Program[pc].StripToken? ==> Done(w, SetToken))
  }

  lemma StepPrepares(w: World, pc: nat, ok: bool, flat: Flat, id: Id)
    requires pc < |Program| && !Ends(w, Program[pc], ok)
    ensures Prepared(Effect(w, Program[pc], ok, flat, id), NextPc(w, pc, ok))
  {
    var next := NextPc(w, pc, ok);
    if next < |Program| {
      if Program[next].Delete? { ProgramIsOrdered(pc, next); }
      if Program[next].StripToken? {
        ProgramIsOrdered(pc, next);
        assert Program[4] == SetToken;
      }
    }
  }

  /** Whatever fails in it, an attempt that does not reach the marker leads to the same end as none. */
  lemma {:induction false} CutExecution(w: World, pc: nat, oks: seq<bool>, flat: Flat, id: Id)
    requires Known(w) && NoConflict(w) && !w.config.V2? && flat == FlatOf(w.config) && Prepared(w, pc)
    ensures var w' := Execute(w, pc, oks, flat, id);
      !w'.config.V2? ==> Final(w', id) == Final(w, id) && Known(w') && NoConflict(w') && flat == FlatOf(w'.config)
    decreases |oks|
  {
    if oks != [] && pc < |Program| && !Program[pc].SaveFile? {
      var op, w' := Program[pc], Effect(w, Program[pc], oks[0], flat, id);
      OpKeepsWorld(w, op, oks[0], flat, id);
      if oks[0] { OpKeepsFinal(w, op, flat, id); }
      if !Ends(w, op, oks[0]) {
        StepPrepares(w, pc, oks[0], flat, id);
        CutExecution(w', NextPc(w, pc, oks[0]), oks[1..], flat, id);
      }
    }
  }

  /** The attempt that completes the migration, if one does, passes over no failure. */
  ghost predicate QuietAtTheEnd(w: World, attempts: seq<seq<bool>>, id: Id) {
    forall k :: (0 <= k < |attempts| && !Attempts(w, attempts[..k], id).config.V2?
                 && Attempts(w, attempts[..k + 1], id).config.V2?) ==> NoSilentFrom(0, attempts[k])
  }

  const Uninterrupted := seq(|Program|, _ => true)

  lemma {:induction false} AttemptsConverge(w: World, attempts: seq<seq<bool>>, id: Id)
    requires Known(w) && NoConflict(w) && !w.config.V2? && QuietAtTheEnd(w, attempts, id)
    ensures var w' := Attempts(w, attempts, id);
      && Final(w', id) == Final(w, id)
      && (if w'.config.V2? then w' == Final(w, id) else Upto(w', 0, FlatOf(w.config)))
  {
    if attempts != [] {
      var before, last := attempts[..|attempts| - 1], attempts[|attempts| - 1];
      assert attempts[..|attempts|] == attempts;
      assert forall k :: 0 <= k <= |before| ==> before[..k] == attempts[..k];
      AttemptsConverge(w, before, id);
      var reached := Attempts(w, before, id);
      if !reached.config.V2? {
        if Attempts(w, attempts, id).config.V2? {
          ExecuteConverges(reached, 0, last, FlatOf(w.config), id);
        } else {
          assert Program[0] == MoveFile(DbFiles[0]);
          CutExecution(reached, 0, last, FlatOf(w.config), id);
        }
      }
    }
  }

  /**
   Cut after any steps, with any failures, any number of times: one more attempt that gets through ends
   where a single uninterrupted attempt does, every file moved, every secret under its new account, none
   under the old. Only an attempt that completed must not have passed over a failure.
   */
  lemma CutsDoNotMatter(w: World, attempts: seq<seq<bool>>, id: Id)
    requires Known(w) && NoConflict(w) && !w.config.V2? && QuietAtTheEnd(w, attempts, id)
    ensures Attempt(Attempts(w, attempts, id), Uninterrupted, id) == Attempt(w, Uninterrupted, id) == Final(w, id)
  {
    AttemptsConverge(w, attempts, id);
    var reached := Attempts(w, attempts, id);
    ExecuteConverges(w, 0, Uninterrupted, FlatOf(w.config), id);
    if !reached.config.V2? {
      ExecuteConverges(reached, 0, Uninterrupted, FlatOf(w.config), id);
    }
  }

  /** The file the migration ends with passes the check of `save`. */
  lemma MigratedIsSound(flat: Flat, id: Id)
    requires IsValidId(id)
    ensures Sound(MigratedConfig(flat, id))
  {
  }

  // -------- What the new file holds

  lemma {:induction false} ExecuteConfig(w: World, pc: nat, oks: seq<bool>, flat: Flat, id: Id)
    requires !w.config.V2? && FlatOf(w.config) == flat
    ensures var w' := Execute(w, pc, oks, flat, id);
      if w'.config.V2? then w'.config == V2(MigratedConfig(flat, id)) else FlatOf(w'.config) == flat
    decreases |oks|
  {
    if oks != [] && pc < |Program| {
      var w' := Effect(w, Program[pc], oks[0], flat, id);
      if !Ends(w, Program[pc], oks[0]) {
        ExecuteConfig(w', NextPc(w, pc, oks[0]), oks[1..], flat, id);
      }
    }
  }

  lemma {:induction false} AttemptsConfig(w: World, attempts: seq<seq<bool>>, id: Id)
    requires !w.config.V2?
    ensures var w' := Attempts(w, attempts, id);
      if w'.config.V2? then w'.config == V2(MigratedConfig(FlatOf(w.config), id)) else FlatOf(w'.config) == FlatOf(w.config)
  {
    if attempts != [] {
      AttemptsConfig(w, attempts[..|attempts| - 1], id);
      var reached := Attempts(w, attempts[..|attempts| - 1], id);
      if !reached.config.V2? {
        ExecuteConfig(reached, 0, attempts[|attempts| - 1], FlatOf(w.config), id);
      }
    }
  }

  /**
   However often it was cut and whatever failed: a completed migration of a flat file has made of it one workspace,
   enabled and active, with the old port, or the first one where it had none, with every old setting, and with
   the entry name that the clients know.
   */
  lemma OldSettingsComeAlong(w: World, attempts: seq<seq<bool>>, id: Id)
    requires w.config.V1? && Attempts(w, attempts, id).config.V2?
    ensures var c, flat := Attempts(w, attempts, id).config.config, w.config.flat;
      && c.active == id && c.workspaces.Keys == {id} && c.openWindows == [] && c.workspaces[id].enabled
      && c.workspaces[id].port == (if flat.port.Some? then flat.port else Some(47011))
      && c.workspaces[id].settings.Keys == flat.settings.Keys + {"mcp_server_name"}
      && c.workspaces[id].settings["mcp_server_name"] == "portuni"
      && forall key :: key in flat.settings && key != "mcp_server_name" ==>
           c.workspaces[id].settings[key] == flat.settings[key]
  {
    AttemptsConfig(w, attempts, id);
  }

  // -------- With failures of any kind

  /** A database file is where it was or moved as it was, never in two places, never written over. */
  ghost predicate FilesKept(w0: World, w: World) {
    && w.files.Keys <= w0.files.Keys && w0.moved.Keys <= w.moved.Keys <= w0.moved.Keys + w0.files.Keys
    && (forall name :: name in w0.moved ==> w.moved[name] == w0.moved[name])
    && (forall name :: name in w.files ==> w.files[name] == w0.files[name])
    && (forall name :: name in w0.files ==>
          name in w.files || (name !in w0.moved && name in w.moved && w.moved[name] == w0.files[name]))
    && (forall name :: name in w.files && name in w.moved ==> name in w0.moved)
  }

  /** A secret is under its old account or under its new one. */
  ghost predicate SecretsKept(w0: World, w: World) {
    forall base :: base in w0.legacy ==> Holds(w, base, w0.legacy[base])
  }

  ghost predicate Holds(w: World, base: string, secret: Secret) {
    if base in w.target then w.target[base] == secret else base in w.legacy && w.legacy[base] == secret
  }

  lemma StepKeepsFiles(w0: World, w: World, op: Op, ok: bool, flat: Flat, id: Id)
    requires FilesKept(w0, w)
    ensures FilesKept(w0, Effect(w, op, ok, flat, id))
  {
  }

  lemma StepKeepsHeld(w: World, op: Op, ok: bool, flat: Flat, id: Id, base: string, secret: Secret)
    requires Holds(w, base, secret)
    requires op.Delete? ==> Done(w, Copy(op.base))
    ensures Holds(Effect(w, op, ok, flat, id), base, secret)
  {
  }

  lemma {:induction false} ExecuteKeeps(w0: World, w: World, pc: nat, oks: seq<bool>, flat: Flat, id: Id)
    requires FilesKept(w0, w) && SecretsKept(w0, w) && Prepared(w, pc)
    ensures var w' := Execute(w, pc, oks, flat, id); FilesKept(w0, w') && SecretsKept(w0, w')
    decreases |oks|
  {
    if oks != [] && pc < |Program| {
      var op, w' := Program[pc], Effect(w, Program[pc], oks[0], flat, id);
      StepKeepsFiles(w0, w, op, oks[0], flat, id);
      forall base | base in w0.legacy ensures Holds(w', base, w0.legacy[base]) {
        StepKeepsHeld(w, op, oks[0], flat, id, base, w0.legacy[base]);
      }
      if !Ends(w, op, oks[0]) {
        StepPrepares(w, pc, oks[0], flat, id);
        ExecuteKeeps(w0, w', NextPc(w, pc, oks[0]), oks[1..], flat, id);
      }
    }
  }

  /**
   Whatever fails and wherever it is cut: no database file is lost, copied or written over, and each
   secret is in one of its two accounts, unless the new one already held another.
   */
  lemma {:induction false} NothingIsLost(w: World, attempts: seq<seq<bool>>, id: Id)
    requires forall base :: base in w.legacy && base in w.target ==> w.target[base] == w.legacy[base]
    ensures var w' := Attempts(w, attempts, id); FilesKept(w, w') && SecretsKept(w, w')
  {
    if attempts != [] {
      var before, last := attempts[..|attempts| - 1], attempts[|attempts| - 1];
      NothingIsLost(w, before, id);
      var reached := Attempts(w, before, id);
      if !reached.config.V2? {
        ExecuteKeeps(w, reached, 0, last, FlatOf(reached.config), id);
      }
    }
  }

  /** A secret survives its migration exactly when the new account is free or holds the same. */
  lemma SurvivesIff(w: World, id: Id, base: string)
    requires Known(w) && NoConflict(w) && !w.config.V2? && base in w.legacy
    ensures var w' := Attempt(w, Uninterrupted, id);
      w'.config.V2? && base in w'.target && base !in w'.legacy
      && (w'.target[base] == w.legacy[base] <==> base !in w.target || w.target[base] == w.legacy[base])
  {
    CutsDoNotMatter(w, [], id);
    assert base in Gathered(w) && Lookup(w, base).Some?;
  }

  // -------- Conflicts

  lemma {:induction false} ExecuteStopsAt(w: World, pc: nat, oks: seq<bool>, flat: Flat, id: Id, k: nat)
    requires pc <= k < |DbFiles| && DbFiles[k] in w.files && DbFiles[k] in w.moved && !w.config.V2?
    ensures var w' := Execute(w, pc, oks, flat, id);
      && DbFiles[k] in w'.files && DbFiles[k] in w'.moved && !w'.config.V2?
      && w'.legacy == w.legacy && w'.target == w.target && w'.config == w.config
    decreases |oks|
  {
    if oks != [] {
      FileAt(pc);
      var w' := Effect(w, Program[pc], oks[0], flat, id);
      assert DbFiles[k] in w'.files && DbFiles[k] in w'.moved;
      if !Ends(w, Program[pc], oks[0]) {
        assert pc != k;
        ExecuteStopsAt(w', pc + 1, oks[1..], flat, id, k);
      }
    }
  }

  /** A file that is in both places stops every attempt before the secrets and before the marker. */
  lemma {:induction false} ConflictStopsIt(w: World, attempts: seq<seq<bool>>, id: Id, k: nat)
    requires k < |DbFiles| && DbFiles[k] in w.files && DbFiles[k] in w.moved && !w.config.V2?
    ensures var w' := Attempts(w, attempts, id);
      && w'.config == w.config && w'.legacy == w.legacy && w'.target == w.target
      && DbFiles[k] in w'.files && DbFiles[k] in w'.moved
  {
    if attempts != [] {
      ConflictStopsIt(w, attempts[..|attempts| - 1], id, k);
      var reached := Attempts(w, attempts[..|attempts| - 1], id);
      ExecuteStopsAt(reached, 0, attempts[|attempts| - 1], FlatOf(w.config), id, k);
    }
  }

  /** An attempt in which nothing fails completes exactly when no file is in both places. */
  lemma CompletesIff(w: World, id: Id)
    requires Known(w) && !w.config.V2?
    ensures Attempt(w, Uninterrupted, id).config.V2? <==> NoConflict(w)
  {
    if NoConflict(w) {
      CutsDoNotMatter(w, [], id);
    } else {
      var name :| name in w.files && name in w.moved;
      var k :| 0 <= k < |DbFiles| && DbFiles[k] == name;
      ConflictStopsIt(w, [Uninterrupted], id, k);
      assert [Uninterrupted][..0] == [];
      assert Attempts(w, [], id) == w;
    }
  }

  // -------- The plaintext token

  /** An attempt in which all goes well but the saving of the token. */
  const TokenFails := seq(|Program|, i => i != 4)

  function WithoutToken(w: World): World {
    w.(config := if w.config.V1? then w.config.(token := None) else w.config)
  }

  lemma {:induction false} ExecuteFiles(w: World, pc: nat, oks: seq<bool>, flat: Flat, id: Id) returns (w': World)
    requires pc <= 4 && Upto(w, pc, flat) && |oks| >= 4 - pc && forall i :: 0 <= i < 4 - pc ==> oks[i]
    ensures Upto(w', 4, flat) && Final(w', id) == Final(w, id)
    ensures w'.config == w.config && w'.legacy == w.legacy && w'.target == w.target
    ensures Execute(w, pc, oks, flat, id) == Execute(w', 4, oks[4 - pc..], flat, id)
    decreases 4 - pc
  {
    if pc == 4 {
      assert oks[0..] == oks;
      w' := w;
    } else {
      FileAt(pc);
      StepKeeps(w, pc, true, flat, id);
      var moved := Effect(w, Program[pc], true, flat, id);
      EndsOnlyOnFailure(w, Program[pc], true);
      w' := ExecuteFiles(moved, pc + 1, oks[1..], flat, id);
      assert oks[1..][3 - pc..] == oks[4 - pc..];
    }
  }

  /**
   When the Keychain refuses the plaintext token, the attempt still goes on to the completion marker. It
   ends as if there had been no token, since the marker overwrites the file that still had it.
   */
  lemma RefusedTokenIsDropped(w: World, id: Id)
    requires Known(w) && NoConflict(w) && NeedsToken(w)
    ensures Attempt(w, TokenFails, id) == Final(WithoutToken(w), id)
  {
    var flat := FlatOf(w.config);
    var moved := ExecuteFiles(w, 0, TokenFails, flat, id);
    SkipsStrip(moved, TokenFails[4..], flat, id);
    FinalWithout(w, moved, id);
    SkippedReaches(moved, TokenFails[4..][1..], flat, id);
  }

  /** Without its token, and with the secrets still to come, the attempt reaches the end of a world without one. */
  lemma SkippedReaches(moved: World, skipped: seq<bool>, flat: Flat, id: Id)
    requires Upto(moved, 4, flat) && GetsThrough(6, skipped)
    ensures var w' := Execute(moved, 6, skipped, flat, id);
      w'.config.V2? && w' == Final(WithoutToken(moved), id)
  {
    SkippingIsStripping(moved, WithoutToken(moved), 6, skipped, flat, id);
    UptoWithout(moved, flat);
    ExecuteConverges(WithoutToken(moved), 6, skipped, flat, id);
  }

  lemma SkipsStrip(w: World, oks: seq<bool>, flat: Flat, id: Id)
    requires NeedsToken(w) && oks != [] && !oks[0]
    ensures Execute(w, 4, oks, flat, id) == Execute(w, 6, oks[1..], flat, id)
  {
    assert Program[4] == SetToken;
  }

  lemma UptoWithout(w: World, flat: Flat)
    requires Upto(w, 4, flat)
    ensures Upto(WithoutToken(w), 6, flat)
  {
    forall i | 0 <= i < 6 ensures Done(WithoutToken(w), Program[i]) {
      assert i < 4 ==> Done(w, Program[i]);
    }
  }

  lemma FinalWithout(w: World, moved: World, id: Id)
    requires !w.config.V2? && Final(moved, id) == Final(w, id)
    requires moved.config == w.config && moved.legacy == w.legacy && moved.target == w.target
    ensures Final(WithoutToken(moved), id) == Final(WithoutToken(w), id)
  {
    GatheredSame(WithoutToken(moved), WithoutToken(w));
  }

  /** From the secrets on, the token left in the file makes no difference but to the file. */
  lemma {:induction false} SkippingIsStripping(w: World, without: World, pc: nat, oks: seq<bool>, flat: Flat, id: Id)
    requires pc >= 6 && without == WithoutToken(w)
    ensures Execute(without, pc, oks, flat, id) == WithoutToken(Execute(w, pc, oks, flat, id))
    decreases |oks|
  {
    if oks != [] && pc < |Program| {
      var op := Program[pc];
      ProgramIsOrdered(5, pc);
      assert !op.SetToken? && !op.StripToken? && !op.MoveFile?;
      if !Ends(w, op, oks[0]) {
        SkippingIsStripping(Effect(w, op, oks[0], flat, id), Effect(without, op, oks[0], flat, id), pc + 1, oks[1..],
                            flat, id);
      }
    }
  }

  /** The plaintext token is somewhere: in the file, or in one of its accounts. */
  ghost predicate TokenHeld(w: World, token: string) {
    || (HasToken(w) && w.config.token.value == token)
    || (Turso in w.legacy && w.legacy[Turso] == token)
    || (Turso in w.target && w.target[Turso] == token)
  }

  /** Wherever there is a token, it is this one. */
  ghost predicate OneToken(w: World, token: string) {
    && (HasToken(w) ==> w.config.token.value == token)
    && (Turso in w.legacy ==> w.legacy[Turso] == token)
    && (Turso in w.target ==> w.target[Turso] == token)
  }

  /** At this step the Keychain refuses a token that no account holds. */
  predicate Refuses(w: World, op: Op, ok: bool) {
    op.SetToken? && NeedsToken(w) && Turso !in w.target && !ok
  }

  /** From `pc` on the attempt reaches the marker, and the token was refused before or on the way. */
  predicate Drops(w: World, pc: nat, oks: seq<bool>, flat: Flat, id: Id, refused: bool)
    decreases |oks|
  {
    oks != [] && pc < |Program| &&
    if Program[pc].SaveFile? then refused && oks[0]
    else
      !Ends(w, Program[pc], oks[0]) &&
      Drops(Effect(w, Program[pc], oks[0], flat, id), NextPc(w, pc, oks[0]), oks[1..], flat, id,
            refused || Refuses(w, Program[pc], oks[0]))
  }

  /** Where the token is while the file is still the flat one. */
  ghost predicate TokenAt(w: World, pc: nat, refused: bool, token: string) {
    && token != "" && !w.config.V2? && OneToken(w, token) && TokenHeld(w, token) && Prepared(w, pc)
    && (refused ==> pc > 5 && Turso !in w.legacy && Turso !in w.target)
    && (!refused && pc > 5 ==> Turso in w.legacy || Turso in w.target)
    && (pc > 7 ==> Turso in w.legacy ==> Turso in w.target)
  }

  lemma TokenMoves(w: World, pc: nat, ok: bool, flat: Flat, id: Id, refused: bool, token: string)
    requires pc < |Program| && !Program[pc].SaveFile? && TokenAt(w, pc, refused, token)
    ensures var w' := Effect(w, Program[pc], ok, flat, id);
      && !w'.config.V2? && OneToken(w', token) && TokenHeld(w', token)
      && (!Ends(w, Program[pc], ok) ==>
            TokenAt(w', NextPc(w, pc, ok), refused || Refuses(w, Program[pc], ok), token))
  {
    TokenSteps(pc);
    if !Ends(w, Program[pc], ok) {
      StepPrepares(w, pc, ok, flat, id);
    }
  }

  /** Where in the program the token is touched. */
  lemma TokenSteps(pc: nat)
    requires pc < |Program|
    ensures Program[pc].SetToken? <==> pc == 4
    ensures Program[pc].StripToken? <==> pc == 5
    ensures Program[pc] == Copy(Turso) <==> pc == 6
    ensures Program[pc] == Delete(Turso) <==> pc == 7
  {
    if pc >= 6 && pc < 16 {
      BaseAt((pc - 6) / 2);
    }
    OtherBases();
  }

  lemma OtherBases()
    ensures Bases[0] == Turso && forall k :: 1 <= k < |Bases| ==> Bases[k] != Turso
  {
    assert Bases[1][0] == 'm' && Bases[2][0] == 'g' && Bases[3][0] == 'p' && Bases[4][0] == 'p' && Turso[0] == 't';
  }

  lemma {:induction false} ExecuteHolds(w: World, pc: nat, oks: seq<bool>, flat: Flat, id: Id, refused: bool, token: string)
    requires TokenAt(w, pc, refused, token)
    ensures var w' := Execute(w, pc, oks, flat, id);
      && OneToken(w', token)
      && (TokenHeld(w', token) <==> !Drops(w, pc, oks, flat, id, refused))
      && (w'.config.V2? || TokenHeld(w', token))
    decreases |oks|
  {
    if oks != [] && pc < |Program| {
      if Program[pc].SaveFile? {
        assert pc == 16;
      } else {
        TokenMoves(w, pc, oks[0], flat, id, refused, token);
        if !Ends(w, Program[pc], oks[0]) {
          ExecuteHolds(Effect(w, Program[pc], oks[0], flat, id), NextPc(w, pc, oks[0]), oks[1..], flat, id,
                       refused || Refuses(w, Program[pc], oks[0]), token);
        }
      }
    }
  }

  /** One of the attempts reached the marker after the Keychain had refused the token in it. */
  ghost predicate Dropped(w: World, attempts: seq<seq<bool>>, id: Id) {
    exists k :: 0 <= k < |attempts| && DropsAt(w, attempts, id, k)
  }

  ghost predicate DropsAt(w: World, attempts: seq<seq<bool>>, id: Id, k: nat)
    requires k < |attempts|
  {
    var reached := Attempts(w, attempts[..k], id);
    !reached.config.V2? && Drops(reached, 0, attempts[k], FlatOf(reached.config), id, false)
  }

  lemma DroppedOne(w: World, attempts: seq<seq<bool>>, id: Id)
    requires attempts != []
    ensures Dropped(w, attempts, id) <==>
              Dropped(w, attempts[..|attempts| - 1], id) || DropsAt(w, attempts, id, |attempts| - 1)
  {
    var before := attempts[..|attempts| - 1];
    assert forall k :: 0 <= k <= |before| ==> before[..k] == attempts[..k];
    forall k | 0 <= k < |before| ensures DropsAt(w, before, id, k) <==> DropsAt(w, attempts, id, k) {
    }
  }

  /**
   The plaintext token, whatever fails and wherever the attempts are cut: it is in the file or in an account
   exactly if no attempt went on to the completion marker after the Keychain had refused the token while no
   account held it.
   */
  lemma {:induction false} TokenSurvivesIff(w: World, attempts: seq<seq<bool>>, id: Id)
    requires NeedsToken(w) && (Turso in w.target ==> w.target[Turso] == w.config.token.value)
    ensures var w' := Attempts(w, attempts, id); var token := w.config.token.value;
      && OneToken(w', token)
      && (TokenHeld(w', token) <==> !Dropped(w, attempts, id))
      && (w'.config.V2? || TokenHeld(w', token))
  {
    if attempts != [] {
      var before, token := attempts[..|attempts| - 1], w.config.token.value;
      TokenSurvivesIff(w, before, id);
      var reached := Attempts(w, before, id);
      DroppedOne(w, attempts, id);
      if !reached.config.V2? {
        assert Program[0] == MoveFile(DbFiles[0]);
        ExecuteHolds(reached, 0, attempts[|attempts| - 1], FlatOf(reached.config), id, false, token);
      }
    }
  }
}
