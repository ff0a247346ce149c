/**
 The config lock of apps/desktop/src/lib.rs, 441-502: any number of writers, each loading, changing and
 saving config.json through the one temporary file, in any interleaving, and a crash at any point.
 */
module ConfigLock {
  import opened Wrappers
  import opened Workspaces

  type Change = Config -> Result<Config, Error>

  datatype Phase =
    | Waiting
    | Locked
    | Loaded(file: Config)
    | Written
    | Saved
    | Failed

  /** `disk` and `temp` are files. `order` is history: the writers that saved, as they did. */
  datatype State = State(
    disk: Config, temp: Option<Config>, holder: Option<nat>, phases: map<nat, Phase>, order: seq<nat>)

  datatype Event =
    | Begins(writer: nat)
    | Locks(writer: nat)
    | Loads(writer: nat)
    | Writes(writer: nat, ok: bool)
    | Renames(writer: nat, ok: bool)
    | Crashes

  /** What `writer` would have `file` saved as, if anything. */
  ghost function Changed(change: Change, file: Config): Option<Config> {
    if change(file).Ok? && Sound(change(file).value) then Some(change(file).value) else None
  }

  ghost predicate In(st: State, w: nat, phase: Phase) {
    w in st.phases && st.phases[w] == phase
  }

  ghost predicate Enabled(st: State, e: Event) {
    match e
    case Begins(w) => w !in st.phases
    case Locks(w) => In(st, w, Waiting) && st.holder.None?
    case Loads(w) => In(st, w, Locked)
    case Writes(w, _) => w in st.phases && st.phases[w].Loaded?
    case Renames(w, _) => In(st, w, Written) && st.temp.Some?
    case Crashes => true
  }

  ghost function Release(st: State, w: nat, phase: Phase): State {
    st.(holder := None, phases := st.phases[w := phase])
  }

  ghost function Next(st: State, e: Event, changes: nat -> Change): State
    requires Enabled(st, e)
  {
    match e
    case Begins(w) => st.(phases := st.phases[w := Waiting])
    case Locks(w) => st.(holder := Some(w), phases := st.phases[w := Locked])
    case Loads(w) => st.(phases := st.phases[w := Loaded(st.disk)])
    case Writes(w, ok) =>
      var changed := Changed(changes(w), st.phases[w].file);
      if changed.Some? && ok
      then st.(temp := changed, phases := st.phases[w := Written])
      else Release(st, w, Failed)
    case Renames(w, ok) =>
      if ok
      then Release(st.(disk := st.temp.value, temp := None, order := st.order + [w]), w, Saved)
      else Release(st, w, Failed)
    case Crashes =>
      st.(holder := None, phases := map w | w in st.phases :: if st.phases[w].Saved? then Saved else Failed)
  }

  ghost function Run(st: State, events: seq<Event>, changes: nat -> Change): State
    decreases |events|
  {
    if events == [] then st
    else
      var before := Run(st, events[..|events| - 1], changes);
      var e := events[|events| - 1];
      if Enabled(before, e) then Next(before, e, changes) else before
  }

  ghost function Start(disk: Config): State {
    State(disk, None, None, map[], [])
  }

  /** The writers' changes made one after the other, by nobody else and with no lock at all. */
  ghost function OneByOne(disk: Config, order: seq<nat>, changes: nat -> Change): Option<Config> {
    if order == [] then Some(disk)
    else
      var before := OneByOne(disk, order[..|order| - 1], changes);
      if before.None? then None else Changed(changes(order[|order| - 1]), before.value)
  }

  ghost predicate Inside(phase: Phase) {
    phase.Locked? || phase.Loaded? || phase.Written?
  }

  ghost predicate LockInv(st: State) {
    forall w :: w in st.phases && Inside(st.phases[w]) ==> st.holder == Some(w)
  }

  ghost predicate FileInv(st: State, w: nat, changes: nat -> Change) {
    && w in st.phases
    && (st.phases[w].Loaded? ==> st.phases[w].file == st.disk)
    && (st.phases[w].Written? ==> st.temp.Some? && Changed(changes(w), st.disk) == st.temp)
    && (st.phases[w].Saved? <==> w in st.order)
  }

  ghost predicate OrderInv(st: State, start: Config, changes: nat -> Change) {
    && OneByOne(start, st.order, changes) == Some(st.disk)
    && (forall i, j :: 0 <= i < j < |st.order| ==> st.order[i] != st.order[j])
    && (forall w :: w in st.order ==> w in st.phases)
  }

  ghost predicate Inv(st: State, start: Config, changes: nat -> Change) {
    && LockInv(st)
    && (forall w :: w in st.phases ==> FileInv(st, w, changes))
    && OrderInv(st, start, changes)
  }

  lemma NextKeepsLock(st: State, e: Event, changes: nat -> Change)
    requires LockInv(st) && Enabled(st, e)
    ensures LockInv(Next(st, e, changes))
  {
  }

  lemma NextKeepsFile(st: State, e: Event, changes: nat -> Change, w: nat)
    requires LockInv(st) && Enabled(st, e) && w in Next(st, e, changes).phases
    requires forall o :: o in st.phases ==> FileInv(st, o, changes)
    requires forall o :: o in st.order ==> o in st.phases
    ensures FileInv(Next(st, e, changes), w, changes)
  {
    if w in st.phases {
      assert FileInv(st, w, changes);
      assert !Inside(st.phases[w]) || st.holder == Some(w);
    }
  }

  lemma NextKeepsOrder(st: State, e: Event, start: Config, changes: nat -> Change)
    requires Inv(st, start, changes) && Enabled(st, e)
    ensures OrderInv(Next(st, e, changes), start, changes)
  {
    if e.Renames? && e.ok {
      assert FileInv(st, e.writer, changes);
      assert Next(st, e, changes).order[..|st.order|] == st.order;
    }
  }

  lemma NextKeeps(st: State, e: Event, start: Config, changes: nat -> Change)
    requires Inv(st, start, changes) && Enabled(st, e)
    ensures Inv(Next(st, e, changes), start, changes)
  {
    var st' := Next(st, e, changes);
    assert LockInv(st') by { NextKeepsLock(st, e, changes); }
    assert OrderInv(st', start, changes) by { NextKeepsOrder(st, e, start, changes); }
    forall w | w in st'.phases ensures FileInv(st', w, changes) {
      NextKeepsFile(st, e, changes, w);
    }
  }

  lemma {:induction false} RunKeeps(start: Config, events: seq<Event>, changes: nat -> Change)
    ensures Inv(Run(Start(start), events, changes), start, changes)
    decreases |events|
  {
    if events != [] {
      RunKeeps(start, events[..|events| - 1], changes);
      var before, e := Run(Start(start), events[..|events| - 1], changes), events[|events| - 1];
      if Enabled(before, e) {
        NextKeeps(before, e, start, changes);
      }
    }
  }

  /**
   No update is lost: the file is what the writers that succeeded, each once, make of the first file one
   after the other, in the order in which they saved.
   */
  lemma WritersTakeTurns(start: Config, events: seq<Event>, changes: nat -> Change)
    ensures var st := Run(Start(start), events, changes);
      && OneByOne(start, st.order, changes) == Some(st.disk)
      && (forall i, j :: 0 <= i < j < |st.order| ==> st.order[i] != st.order[j])
      && (forall w :: w in st.order <==> In(st, w, Saved))
  {
    RunKeeps(start, events, changes);
    var st := Run(Start(start), events, changes);
    forall w | w in st.phases ensures w in st.order <==> In(st, w, Saved) {
      assert FileInv(st, w, changes);
    }
  }

  /** At every point, a crash included, config.json is a whole file that passes `validate`. */
  lemma FileStaysSound(start: Config, events: seq<Event>, changes: nat -> Change)
    requires Sound(start)
    ensures Sound(Run(Start(start), events, changes).disk)
  {
    RunKeeps(start, events, changes);
    OneByOneIsSound(start, Run(Start(start), events, changes).order, changes);
  }

  lemma {:induction false} OneByOneIsSound(disk: Config, order: seq<nat>, changes: nat -> Change)
    requires Sound(disk)
    ensures OneByOne(disk, order, changes).Some? ==> Sound(OneByOne(disk, order, changes).value)
  {
    if order != [] {
      OneByOneIsSound(disk, order[..|order| - 1], changes);
    }
  }
}
