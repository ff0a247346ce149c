/**
 What one call of merge_into in scripts/drive-merge-dups.py (apply mode) does to the tree, as relations
 between the tree before and the tree after, and the invariant of its loop.
 */
module DriveMerge {
  import opened DriveTree

  // -------- What one merge_into call does

  ghost function Kids(t: Tree, folder: Id): set<Id>
    requires Valid(t)
  {
    set x | x in t.items && Child(t, folder, x)
  }

  function FileNames(t: Tree, ids: set<Id>): set<string>
  {
    set x | x in ids && x in t.items && !t.items[x].folder :: t.items[x].name
  }

  function FolderNames(t: Tree, ids: set<Id>): set<string>
  {
    set x | x in ids && x in t.items && t.items[x].folder :: t.items[x].name
  }

  /** File `f` of `ids` has a name in `taken`, or shares its name with another file of `ids`. */
  predicate Clashes(t: Tree, taken: set<string>, ids: set<Id>, f: Id)
  {
    f in ids && f in t.items && !t.items[f].folder &&
    (t.items[f].name in taken || t.items[f].name in FileNames(t, ids - {f}))
  }

  ghost predicate AnyClash(t: Tree, taken: set<string>, ids: set<Id>)
  {
    exists f :: Clashes(t, taken, ids, f)
  }

  /** Some file directly in `dup` has a name that a file of `keep` or another file of `dup` has. */
  ghost predicate DirectClash(t: Tree, keep: Id, dup: Id)
    requires Valid(t)
  {
    AnyClash(t, FileNames(t, Kids(t, keep)), Kids(t, dup))
  }

  ghost predicate MergePre(t: Tree, keep: Id, dup: Id, cut: set<Id>)
  {
    && Valid(t)
    && keep in t.items && dup in t.items && keep != dup
    && t.items[keep].folder && t.items[dup].folder
    && t.path[keep] == t.path[dup]
    && Live(t, cut, keep) && Live(t, cut, dup)
    && forall x :: x in cut && x in t.items ==> !Below(t.path[dup], t.path[x])
  }

  /** A folder of `dup` that has a namesake in `keep` is merged there and stays where it is. */
  ghost predicate NamesakesStay(t: Tree, t': Tree, keep: Id, dup: Id)
    requires Valid(t) && t'.items.Keys == t.items.Keys
  {
    forall c :: c in Kids(t, dup) && t.items[c].folder && t.items[c].name in FolderNames(t, Kids(t, keep))
                ==> t'.items[c].parent == dup
  }

  ghost predicate Step(t: Tree, t': Tree, dup: Id)
    requires Valid(t) && dup in t.items
  {
    Valid(t') && SameItems(t, t') && Frame(t, t', dup) && NoNewTwins(t, t') && NothingRevived(t, t')
  }

  /** The part of the outcome that does not depend on whether `dup` is trashed in the end. */
  ghost predicate MergeStep(t: Tree, t': Tree, keep: Id, dup: Id, cut: set<Id>)
    requires Valid(t) && dup in t.items
  {
    && Step(t, t', dup)
    && NamesakesStay(t, t', keep, dup)
    && LivePaths(t, cut) <= LivePaths(t', cut + {dup})
  }

  // -------- Steps compose

  lemma BelowTransitive(p: Path, q: Path, r: Path)
    requires Below(p, q) && Below(q, r)
    ensures Below(p, r)
  {
    assert r[..|p|] == r[..|q|][..|p|];
  }

  lemma FrameWidens(t0: Tree, t1: Tree, t2: Tree, dup: Id, c: Id)
    requires Valid(t0) && Valid(t1) && SameItems(t0, t1) && dup in t0.items && c in t0.items
    requires Frame(t0, t1, dup) && Frame(t1, t2, c) && Below(t0.path[dup], t0.path[c])
    ensures Frame(t0, t2, dup)
  {
    forall x | x in t0.items && !Below(t0.path[dup], t0.path[x])
      ensures x != c && !Below(t0.path[c], t0.path[x])
    {
      if Below(t0.path[c], t0.path[x]) {
        BelowTransitive(t0.path[dup], t0.path[c], t0.path[x]);
      }
    }
  }

  lemma TwinsTransitive(t0: Tree, t1: Tree, t2: Tree)
    requires t0.path.Keys == t0.items.Keys && SameItems(t0, t1) && SameItems(t1, t2)
    requires NoNewTwins(t0, t1) && NoNewTwins(t1, t2)
    ensures NoNewTwins(t0, t2)
  {
  }

  lemma StepWidens(t0: Tree, t1: Tree, t2: Tree, dup: Id, c: Id)
    requires Valid(t0) && dup in t0.items && c in t0.items
    requires Step(t0, t1, dup) && Step(t1, t2, c) && Below(t0.path[dup], t0.path[c])
    ensures Step(t0, t2, dup) && t2.items[dup] == t1.items[dup]
  {
    assert SameItems(t0, t2);
    assert Frame(t0, t2, dup) && t2.items[dup] == t1.items[dup] by { FrameWidens(t0, t1, t2, dup, c); }
    assert NoNewTwins(t0, t2) by { TwinsTransitive(t0, t1, t2); }
    assert NothingRevived(t0, t2) by { RevivedTransitive(t0, t1, t2); }
  }

  lemma RevivedTransitive(t0: Tree, t1: Tree, t2: Tree)
    requires Valid(t0) && Valid(t1) && Valid(t2) && SameItems(t0, t1) && SameItems(t1, t2)
    requires NothingRevived(t0, t1) && NothingRevived(t1, t2)
    ensures SameItems(t0, t2) && NothingRevived(t0, t2)
  {
  }

  // -------- The loop of merge_into

  /** Where the loop stands; `settled` are the children of `dup` it has dealt with and left in place. */
  datatype Loop = Loop(t: Tree, settled: set<Id>, pending: set<Id>,
                       folders: map<string, Id>, files: set<string>, leftBehind: nat)

  function Nested(s: Loop, t1: Tree, c: Id): Loop {
    s.(t := t1, settled := s.settled + {c}, pending := s.pending - {c})
  }

  function LeftBehind(s: Loop, c: Id): Loop {
    s.(settled := s.settled + {c}, pending := s.pending - {c}, leftBehind := s.leftBehind + 1)
  }

  /** The name of `c` is now taken in `keep`. */
  function MovedOver(s: Loop, c: Id, keep: Id): Loop
    requires c in s.t.items
  {
    Noted(s, c).(t := Moved(s.t, c, keep), pending := s.pending - {c})
  }

  function Noted(s: Loop, c: Id): Loop
    requires c in s.t.items
  {
    if s.t.items[c].folder then s.(folders := s.folders[s.t.items[c].name := c])
    else s.(files := s.files + {s.t.items[c].name})
  }

  ghost predicate TreeInv(t0: Tree, t: Tree, keep: Id, dup: Id, cut: set<Id>, settled: set<Id>)
  {
    && MergePre(t0, keep, dup, cut) && Step(t0, t, dup) && t.items[dup] == t0.items[dup]
    && Live(t, cut + settled, keep) && Live(t, cut + settled, dup)
    && LivePaths(t0, cut) <= LivePaths(t, cut + settled)
  }

  ghost predicate ChildInv(t0: Tree, dup: Id, s: Loop)
    requires Valid(t0) && Valid(s.t) && SameItems(t0, s.t)
  {
    && s.pending <= Kids(t0, dup) && s.settled <= Kids(t0, dup) && s.settled !! s.pending
    && (forall c :: c in s.pending ==> s.t.items[c] == t0.items[c])
    && (forall c :: c in s.settled ==> s.t.items[c].parent == dup)
    && Kids(s.t, dup) <= s.pending + s.settled
  }

  /** The two name tables are those of `keep` as it is now. */
  ghost predicate TableInv(keep: Id, s: Loop)
    requires Valid(s.t)
  {
    && (forall nm :: nm in s.folders ==> Child(s.t, keep, s.folders[nm]) && s.t.items[s.folders[nm]].folder
                                         && s.t.items[s.folders[nm]].name == nm)
    && FolderNames(s.t, Kids(s.t, keep)) <= s.folders.Keys
    && s.files == FileNames(s.t, Kids(s.t, keep))
  }

  /** What the tables and the counter say about the tree at the start of the call. */
  ghost predicate OriginInv(t0: Tree, keep: Id, dup: Id, s: Loop)
    requires Valid(t0) && Valid(s.t) && SameItems(t0, s.t)
  {
    && FolderNames(t0, Kids(t0, keep)) <= s.folders.Keys
    && NamesakesStay(t0, s.t, keep, dup)
    && s.files == FileNames(t0, Kids(t0, keep)) + FileNames(t0, Kids(t0, dup) - s.pending)
    && ((s.leftBehind > 0) == AnyClash(t0, FileNames(t0, Kids(t0, keep)), Kids(t0, dup) - s.pending))
  }

  // The parts of the invariant, folded, so that a proof can hand on those it does not open.

  ghost predicate TreeOk(t0: Tree, keep: Id, dup: Id, cut: set<Id>, s: Loop)
  {
    forall x {:trigger TreeInv(t0, x, keep, dup, cut, s.settled)} :: x == s.t ==>
      TreeInv(t0, x, keep, dup, cut, s.settled)
  }

  ghost predicate ChildHolds(t0: Tree, dup: Id, s: Loop)
  {
    Valid(t0) && Valid(s.t) && SameItems(t0, s.t) && ChildInv(t0, dup, s)
  }

  ghost predicate ChildOk(t0: Tree, dup: Id, s: Loop)
  {
    forall x {:trigger ChildHolds(t0, dup, x)} :: x == s ==> ChildHolds(t0, dup, x)
  }

  ghost predicate TableHolds(keep: Id, s: Loop)
  {
    Valid(s.t) && TableInv(keep, s)
  }

  ghost predicate TableOk(keep: Id, s: Loop)
  {
    forall x {:trigger TableHolds(keep, x)} :: x == s ==> TableHolds(keep, x)
  }

  ghost predicate OriginHolds(t0: Tree, keep: Id, dup: Id, s: Loop)
  {
    Valid(t0) && Valid(s.t) && SameItems(t0, s.t) && OriginInv(t0, keep, dup, s)
  }

  ghost predicate OriginOk(t0: Tree, keep: Id, dup: Id, s: Loop)
  {
    forall x {:trigger OriginHolds(t0, keep, dup, x)} :: x == s ==> OriginHolds(t0, keep, dup, x)
  }

  lemma OpenTree(t0: Tree, keep: Id, dup: Id, cut: set<Id>, s: Loop)
    requires TreeOk(t0, keep, dup, cut, s)
    ensures TreeInv(t0, s.t, keep, dup, cut, s.settled)
  {
  }

  lemma OpenChild(t0: Tree, dup: Id, s: Loop)
    requires ChildOk(t0, dup, s)
    ensures ChildHolds(t0, dup, s)
  {
  }

  lemma OpenTable(keep: Id, s: Loop)
    requires TableOk(keep, s)
    ensures TableHolds(keep, s)
  {
  }

  lemma OpenOrigin(t0: Tree, keep: Id, dup: Id, s: Loop)
    requires OriginOk(t0, keep, dup, s)
    ensures OriginHolds(t0, keep, dup, s)
  {
  }

  ghost predicate LoopInv(t0: Tree, keep: Id, dup: Id, cut: set<Id>, s: Loop)
  {
    TreeOk(t0, keep, dup, cut, s) && ChildOk(t0, dup, s) && TableOk(keep, s) && OriginOk(t0, keep, dup, s)
  }

  lemma AddFolder(t: Tree, taken: set<string>, ids: set<Id>, c: Id)
    requires c in t.items && t.items[c].folder
    ensures FileNames(t, ids + {c}) == FileNames(t, ids)
    ensures AnyClash(t, taken, ids + {c}) == AnyClash(t, taken, ids)
  {
    forall f
      ensures Clashes(t, taken, ids + {c}, f) == Clashes(t, taken, ids, f)
    {
      assert FileNames(t, (ids + {c}) - {f}) == FileNames(t, ids - {f});
    }
  }

  lemma AddFile(t: Tree, taken: set<string>, ids: set<Id>, c: Id)
    requires c in t.items && !t.items[c].folder && c !in ids
    ensures FileNames(t, ids + {c}) == FileNames(t, ids) + {t.items[c].name}
    ensures AnyClash(t, taken, ids + {c}) ==
            (AnyClash(t, taken, ids) || t.items[c].name in taken + FileNames(t, ids))
  {
    assert (ids + {c}) - {c} == ids;
    forall f | f != c
      ensures Clashes(t, taken, ids, f) ==> Clashes(t, taken, ids + {c}, f)
      ensures Clashes(t, taken, ids + {c}, f) ==>
                Clashes(t, taken, ids, f) || t.items[c].name in FileNames(t, ids)
    {
      assert (ids + {c}) - {f} == (ids - {f}) + {c};
    }
    if t.items[c].name in taken + FileNames(t, ids) {
      assert Clashes(t, taken, ids + {c}, c);
    }
  }

  lemma ChildPath(t: Tree, folder: Id, c: Id)
    requires Valid(t) && folder in t.items && Child(t, folder, c)
    ensures t.path[c] == t.path[folder] + [t.items[c].name] && Below(t.path[folder], t.path[c])
    ensures c != folder
  {
  }

  lemma PendingChild(t0: Tree, keep: Id, dup: Id, cut: set<Id>, s: Loop, c: Id)
    requires TreeOk(t0, keep, dup, cut, s) && ChildOk(t0, dup, s) && c in s.pending
    ensures Valid(t0) && Valid(s.t) && SameItems(t0, s.t) && dup in t0.items && keep in t0.items
    ensures c in t0.items && s.t.items[c] == t0.items[c] && c !in s.settled
    ensures Child(t0, dup, c) && Child(s.t, dup, c)
    ensures s.t.path[c] == s.t.path[dup] + [s.t.items[c].name] && Below(s.t.path[dup], s.t.path[c])
    ensures c != keep && c != dup && c !in cut + s.settled
  {
    OpenTree(t0, keep, dup, cut, s);
    OpenChild(t0, dup, s);
    assert c in Kids(t0, dup) && Placed(s.t, c);
    ChildPath(t0, dup, c);
  }

  // A child folder with a namesake in keep: the nested call

  /** The nested call finds what it needs. */
  lemma NestedPre(t0: Tree, keep: Id, dup: Id, cut: set<Id>, s: Loop, c: Id)
    requires LoopInv(t0, keep, dup, cut, s)
    requires c in s.pending && c in s.t.items && s.t.items[c].folder && s.t.items[c].name in s.folders
    ensures MergePre(s.t, s.folders[s.t.items[c].name], c, cut + s.settled)
    ensures Valid(t0) && keep in t0.items
    ensures s.t.path == t0.path && |t0.path[s.folders[s.t.items[c].name]]| == |t0.path[keep]| + 1
  {
    var k := s.folders[s.t.items[c].name];
    PendingChild(t0, keep, dup, cut, s, c);
    OpenTree(t0, keep, dup, cut, s);
    OpenChild(t0, dup, s);
    OpenTable(keep, s);
    assert Child(s.t, keep, k);
    ChildPath(s.t, keep, k);
    forall x | x in cut + s.settled && x in s.t.items
      ensures !Below(s.t.path[c], s.t.path[x])
    {
      if x in cut {
        if Below(s.t.path[c], s.t.path[x]) {
          BelowTransitive(s.t.path[dup], s.t.path[c], s.t.path[x]);
        }
      } else {
        assert x in Kids(t0, dup);
      }
    }
  }

  /** A step inside `c` leaves alone what lies no deeper than `c`. */
  lemma NearbyUntouched(t: Tree, t1: Tree, c: Id, folder: Id)
    requires Valid(t) && c in t.items && Step(t, t1, c) && folder in t.items && |t.path[folder]| < |t.path[c]|
    ensures t1.items[folder] == t.items[folder]
    ensures forall x :: x in t.items && |t.path[x]| <= |t.path[c]| && x != c ==> t1.items[x] == t.items[x]
    ensures forall x :: x in t.items && x != c ==> Child(t1, folder, x) == Child(t, folder, x)
    ensures Child(t1, folder, c) ==> Child(t, folder, c)
  {
    forall x | x in t.items
      ensures x != c ==> Child(t1, folder, x) == Child(t, folder, x)
      ensures Child(t1, folder, x) ==> Child(t, folder, x)
    {
      assert Placed(t, x) && Placed(t1, x);
    }
  }

  lemma NestedTree(t0: Tree, t1: Tree, keep: Id, dup: Id, cut: set<Id>, s: Loop, k: Id, c: Id)
    requires TreeOk(t0, keep, dup, cut, s) && ChildOk(t0, dup, s) && c in s.pending
    requires Valid(s.t) && c in s.t.items && MergeStep(s.t, t1, k, c, cut + s.settled)
    ensures TreeOk(t0, keep, dup, cut, Nested(s, t1, c))
  {
    OpenTree(t0, keep, dup, cut, s);
    PendingChild(t0, keep, dup, cut, s, c);
    assert Step(t0, t1, dup) && t1.items[dup] == s.t.items[dup] by { StepWidens(t0, s.t, t1, dup, c); }
    assert cut + (s.settled + {c}) == (cut + s.settled) + {c};
    NestedLive(s.t, t1, c, cut + s.settled, keep);
    NestedLive(s.t, t1, c, cut + s.settled, dup);
  }

  /** A folder less deep than `c` stays live, with `c` cut as well. */
  lemma NestedLive(t: Tree, t1: Tree, c: Id, cut: set<Id>, folder: Id)
    requires Valid(t) && c in t.items && Step(t, t1, c) && folder in t.items && |t.path[folder]| < |t.path[c]|
    ensures Live(t1, cut + {c}, folder) == Live(t, cut, folder)
  {
    CutKeepsShallower(t1, cut, c, folder);
    FrameKeepsLive(t, t1, c, cut, folder);
  }

  lemma NestedChildren(t0: Tree, t1: Tree, keep: Id, dup: Id, cut: set<Id>, s: Loop, c: Id)
    requires TreeOk(t0, keep, dup, cut, s) && ChildOk(t0, dup, s) && c in s.pending
    requires Valid(s.t) && c in s.t.items && Step(s.t, t1, c)
    ensures ChildOk(t0, dup, Nested(s, t1, c))
  {
    PendingChild(t0, keep, dup, cut, s, c);
    OpenChild(t0, dup, s);
    SameTransitive(t0, s.t, t1);
    assert Kids(t1, dup) <= Kids(s.t, dup) by { NearbyUntouched(s.t, t1, c, dup); }
    forall x | x in Kids(t0, dup) && x != c ensures t1.items[x] == s.t.items[x] {
      BesideUntouched(t0, s.t, t1, dup, c, x);
    }
    assert t1.items[c].parent == dup;
    NestedChildInv(t0, t1, dup, s, c);
  }

  lemma NestedChildInv(t0: Tree, t1: Tree, dup: Id, s: Loop, c: Id)
    requires Valid(t0) && Valid(s.t) && Valid(t1) && SameItems(t0, s.t) && SameItems(t0, t1)
    requires ChildInv(t0, dup, s) && c in s.pending && Kids(t1, dup) <= Kids(s.t, dup)
    requires forall x :: x in Kids(t0, dup) && x != c ==> t1.items[x] == s.t.items[x]
    requires c in t1.items && t1.items[c].parent == dup
    ensures ChildInv(t0, dup, Nested(s, t1, c))
  {
  }

  lemma BesideUntouched(t0: Tree, t: Tree, t1: Tree, dup: Id, c: Id, x: Id)
    requires Valid(t0) && Valid(t) && SameItems(t0, t) && dup in t0.items && c in t.items && Step(t, t1, c)
    requires Child(t0, dup, c) && Child(t0, dup, x) && x != c
    ensures t1.items[x] == t.items[x]
  {
    ChildPath(t0, dup, x);
    ChildPath(t0, dup, c);
  }

  lemma NestedTables(t0: Tree, t1: Tree, keep: Id, dup: Id, cut: set<Id>, s: Loop, c: Id)
    requires TreeOk(t0, keep, dup, cut, s) && ChildOk(t0, dup, s) && TableOk(keep, s) && c in s.pending
    requires Valid(s.t) && c in s.t.items && Step(s.t, t1, c)
    ensures TableOk(keep, Nested(s, t1, c))
  {
    PendingChild(t0, keep, dup, cut, s, c);
    OpenTable(keep, s);
    assert t0.path[keep] == t0.path[dup] && keep != dup by { OpenTree(t0, keep, dup, cut, s); }
    NearbyUntouched(s.t, t1, c, keep);
    assert Kids(t1, keep) == Kids(s.t, keep);
    SameKidsSameTables(t1, keep, s, c);
  }

  lemma SameKidsSameTables(t1: Tree, keep: Id, s: Loop, c: Id)
    requires TableHolds(keep, s) && Valid(t1) && SameItems(s.t, t1) && Kids(t1, keep) == Kids(s.t, keep)
    ensures TableHolds(keep, Nested(s, t1, c))
  {
    forall nm | nm in s.folders ensures Child(t1, keep, s.folders[nm]) {
      assert s.folders[nm] in Kids(s.t, keep);
    }
  }

  lemma NestedOrigin(t0: Tree, t1: Tree, keep: Id, dup: Id, cut: set<Id>, s: Loop, c: Id)
    requires TreeOk(t0, keep, dup, cut, s) && ChildOk(t0, dup, s) && OriginOk(t0, keep, dup, s) && c in s.pending
    requires Valid(s.t) && c in s.t.items && s.t.items[c].folder && Step(s.t, t1, c)
    ensures OriginOk(t0, keep, dup, Nested(s, t1, c))
  {
    PendingChild(t0, keep, dup, cut, s, c);
    OpenOrigin(t0, keep, dup, s);
    FolderDone(t0, keep, Kids(t0, dup), s.pending, c);
    NamesakesKept(t0, s.t, t1, keep, dup, c);
  }

  lemma FolderDone(t: Tree, keep: Id, kids: set<Id>, pending: set<Id>, c: Id)
    requires Valid(t) && c in t.items && t.items[c].folder && c in kids && c in pending
    ensures FileNames(t, kids - (pending - {c})) == FileNames(t, kids - pending)
    ensures AnyClash(t, FileNames(t, Kids(t, keep)), kids - (pending - {c})) ==
            AnyClash(t, FileNames(t, Kids(t, keep)), kids - pending)
  {
    assert kids - (pending - {c}) == kids - pending + {c};
    AddFolder(t, FileNames(t, Kids(t, keep)), kids - pending, c);
  }

  lemma NamesakesKept(t0: Tree, t: Tree, t1: Tree, keep: Id, dup: Id, c: Id)
    requires Valid(t0) && Valid(t) && SameItems(t0, t) && dup in t0.items && c in t.items && Step(t, t1, c)
    requires Child(t0, dup, c) && t.items[c].parent == dup && NamesakesStay(t0, t, keep, dup)
    ensures NamesakesStay(t0, t1, keep, dup)
  {
    ChildPath(t0, dup, c);
    forall x | x in Kids(t0, dup) && t.items[x].parent == dup
      ensures t1.items[x].parent == dup
    {
      ChildPath(t0, dup, x);
      assert x == c || !Below(t.path[c], t.path[x]);
    }
  }

  lemma AfterNested(t0: Tree, t1: Tree, keep: Id, dup: Id, cut: set<Id>, s: Loop, k: Id, c: Id)
    requires LoopInv(t0, keep, dup, cut, s) && c in s.pending
    requires Valid(s.t) && c in s.t.items && s.t.items[c].folder && MergeStep(s.t, t1, k, c, cut + s.settled)
    ensures LoopInv(t0, keep, dup, cut, Nested(s, t1, c))
  {
    NestedTree(t0, t1, keep, dup, cut, s, k, c);
    NestedChildren(t0, t1, keep, dup, cut, s, c);
    NestedTables(t0, t1, keep, dup, cut, s, c);
    NestedOrigin(t0, t1, keep, dup, cut, s, c);
  }

  // A file whose name is taken: left behind

  /** The file of keep with that name. */
  lemma TakenBy(keep: Id, s: Loop, name: string) returns (g: Id)
    requires TableOk(keep, s) && name in s.files
    ensures Valid(s.t) && Child(s.t, keep, g) && !s.t.items[g].folder && s.t.items[g].name == name
  {
    OpenTable(keep, s);
    g :| g in Kids(s.t, keep) && !s.t.items[g].folder && s.t.items[g].name == name;
  }

  /** It stands in for the one left behind. */
  lemma ConflictPaths(t: Tree, keep: Id, dup: Id, cut: set<Id>, c: Id, g: Id)
    requires Valid(t) && keep in t.items && dup in t.items && keep != dup && t.path[keep] == t.path[dup]
    requires Child(t, dup, c) && Child(t, keep, g) && !t.items[c].folder && !t.items[g].folder
    requires t.items[g].name == t.items[c].name && Live(t, cut, keep) && g !in cut
    ensures LivePaths(t, cut) <= LivePaths(t, cut + {c})
  {
    assert LiveFile(t, cut, g);
    forall p | p in LivePaths(t, cut)
      ensures p in LivePaths(t, cut + {c})
    {
      var x :| x in t.items && LiveFile(t, cut, x) && t.path[x] == p;
      var y := if x == c then g else x;
      CutFile(t, cut, c, y);
      assert LiveFile(t, cut + {c}, y);
    }
  }

  lemma ConflictTree(t0: Tree, keep: Id, dup: Id, cut: set<Id>, s: Loop, c: Id)
    requires TreeOk(t0, keep, dup, cut, s) && ChildOk(t0, dup, s) && TableOk(keep, s)
    requires c in s.pending && c in s.t.items && !s.t.items[c].folder && s.t.items[c].name in s.files
    ensures TreeOk(t0, keep, dup, cut, LeftBehind(s, c))
  {
    PendingChild(t0, keep, dup, cut, s, c);
    OpenTree(t0, keep, dup, cut, s);
    assert cut + (s.settled + {c}) == cut + s.settled + {c};
    CutKeepsShallower(s.t, cut + s.settled, c, keep);
    CutKeepsShallower(s.t, cut + s.settled, c, dup);
    var g := TakenBy(keep, s, s.t.items[c].name);
    assert g !in cut + s.settled by { KeepChildUncut(t0, keep, dup, cut, s, g); }
    ConflictPaths(s.t, keep, dup, cut + s.settled, c, g);
  }

  /** What hangs under keep is neither cut nor settled. */
  lemma KeepChildUncut(t0: Tree, keep: Id, dup: Id, cut: set<Id>, s: Loop, g: Id)
    requires TreeOk(t0, keep, dup, cut, s) && ChildOk(t0, dup, s) && Valid(s.t) && keep in s.t.items && Child(s.t, keep, g)
    ensures g !in cut + s.settled
  {
    OpenTree(t0, keep, dup, cut, s);
    OpenChild(t0, dup, s);
    ChildPath(s.t, keep, g);
  }

  lemma ConflictOrigin(t0: Tree, keep: Id, dup: Id, s: Loop, c: Id)
    requires OriginOk(t0, keep, dup, s) && Valid(t0)
    requires c in s.pending && c in Kids(t0, dup) && !t0.items[c].folder && t0.items[c].name in s.files
    ensures OriginOk(t0, keep, dup, LeftBehind(s, c))
  {
    OpenOrigin(t0, keep, dup, s);
    var done := Kids(t0, dup) - s.pending;
    assert Kids(t0, dup) - (s.pending - {c}) == done + {c};
    AddFile(t0, FileNames(t0, Kids(t0, keep)), done, c);
  }

  lemma ConflictChildren(t0: Tree, dup: Id, s: Loop, c: Id)
    requires ChildOk(t0, dup, s) && c in s.pending
    ensures ChildOk(t0, dup, LeftBehind(s, c))
  {
    OpenChild(t0, dup, s);
    assert c in Kids(t0, dup);
  }

  lemma AfterConflict(t0: Tree, keep: Id, dup: Id, cut: set<Id>, s: Loop, c: Id)
    requires LoopInv(t0, keep, dup, cut, s)
    requires c in s.pending && c in s.t.items && !s.t.items[c].folder && s.t.items[c].name in s.files
    ensures LoopInv(t0, keep, dup, cut, LeftBehind(s, c))
  {
    PendingChild(t0, keep, dup, cut, s, c);
    ConflictTree(t0, keep, dup, cut, s, c);
    ConflictChildren(t0, dup, s, c);
    ConflictOrigin(t0, keep, dup, s, c);
    OpenTable(keep, s);
  }

  // Anything else: moved into keep

  lemma MoveTree(t0: Tree, keep: Id, dup: Id, cut: set<Id>, s: Loop, c: Id)
    requires TreeOk(t0, keep, dup, cut, s) && ChildOk(t0, dup, s) && TableOk(keep, s)
    requires c in s.pending && c in s.t.items
    requires if s.t.items[c].folder then s.t.items[c].name !in s.folders else s.t.items[c].name !in s.files
    ensures TreeOk(t0, keep, dup, cut, MovedOver(s, c, keep)) && Valid(Moved(s.t, c, keep))
  {
    PendingChild(t0, keep, dup, cut, s, c);
    OpenTree(t0, keep, dup, cut, s);
    var t1 := Moved(s.t, c, keep);
    assert Valid(t1) by { MovedValid(s.t, c, keep); }
    MoveLive(s.t, keep, dup, cut + s.settled, c);
    assert NoNewTwins(s.t, t1) by {
      OpenTable(keep, s);
      MoveTwins(s.t, keep, c);
    }
    assert Step(t0, t1, dup) by { MoveStep(t0, s.t, keep, dup, c); }
  }

  lemma MovedSame(t: Tree, keep: Id, c: Id)
    requires c in t.items
    ensures SameItems(t, Moved(t, c, keep))
    ensures forall x :: x in t.items && x != c ==> Moved(t, c, keep).items[x] == t.items[x]
  {
  }

  lemma MoveFrame(t0: Tree, t: Tree, t1: Tree, dup: Id, c: Id)
    requires Valid(t0) && SameItems(t0, t) && SameItems(t, t1) && dup in t0.items && c in t0.items && Frame(t0, t, dup)
    requires c != dup && Below(t0.path[dup], t0.path[c])
    requires forall x :: x in t.items && x != c ==> t1.items[x] == t.items[x]
    ensures Frame(t0, t1, dup)
  {
  }

  lemma MoveStep(t0: Tree, t: Tree, keep: Id, dup: Id, c: Id)
    requires Valid(t0) && dup in t0.items && Step(t0, t, dup) && keep in t.items && c in t.items
    requires c != dup && Below(t.path[dup], t.path[c])
    requires Valid(Moved(t, c, keep)) && NoNewTwins(t, Moved(t, c, keep)) && NothingRevived(t, Moved(t, c, keep))
    ensures Step(t0, Moved(t, c, keep), dup)
  {
    var t1 := Moved(t, c, keep);
    MovedSame(t, keep, c);
    RevivedTransitive(t0, t, t1);
    TwinsTransitive(t0, t, t1);
    MoveFrame(t0, t, t1, dup, c);
  }

  lemma MoveLive(t: Tree, keep: Id, dup: Id, cut: set<Id>, c: Id)
    requires Valid(t) && Child(t, dup, c) && keep in t.items && dup in t.items && t.items[keep].folder
    requires t.path[keep] == t.path[dup] && Live(t, cut, keep) && Live(t, cut, dup) && Valid(Moved(t, c, keep))
    ensures Live(Moved(t, c, keep), cut, keep) && Live(Moved(t, c, keep), cut, dup)
    ensures NothingRevived(t, Moved(t, c, keep))
    ensures LivePaths(t, cut) <= LivePaths(Moved(t, c, keep), cut)
    ensures forall x :: LiveFile(Moved(t, c, keep), {}, x) == LiveFile(t, {}, x)
  {
    var t1 := Moved(t, c, keep);
    LiveShrinksWithCut(t, {}, cut, keep);
    LiveShrinksWithCut(t, {}, cut, dup);
    forall x | x in t.items
      ensures Live(t1, {}, x) == Live(t, {}, x)
      ensures Live(t1, cut, x) == Live(t, cut, x)
    {
      MoveKeepsLive(t, {}, c, keep, x);
      MoveKeepsLive(t, cut, c, keep, x);
    }
    assert forall x :: LiveFile(t1, cut, x) == LiveFile(t, cut, x);
  }

  lemma MoveTwins(t: Tree, keep: Id, c: Id)
    requires Valid(t) && keep in t.items && c in t.items && c != t.root && t.items[keep].folder
    requires Placed(t, c) && t.path[keep] == t.path[t.items[c].parent]
    requires t.items[c].name !in if t.items[c].folder then FolderNames(t, Kids(t, keep)) else FileNames(t, Kids(t, keep))
    ensures NoNewTwins(t, Moved(t, c, keep))
  {
    forall f | f in t.items && f != t.root && !t.items[f].trashed && t.items[f].parent == keep
               && t.items[f].folder == t.items[c].folder
      ensures t.path[f] != t.path[c]
    {
      assert Placed(t, f) && f in Kids(t, keep);
      assert t.path[f][|t.path[keep]|] == t.items[f].name && t.path[c][|t.path[keep]|] == t.items[c].name;
    }
  }

  lemma MoveChildren(t0: Tree, keep: Id, dup: Id, cut: set<Id>, s: Loop, c: Id)
    requires TreeOk(t0, keep, dup, cut, s) && ChildOk(t0, dup, s) && c in s.pending && c in s.t.items
    requires Valid(Moved(s.t, c, keep))
    ensures ChildOk(t0, dup, MovedOver(s, c, keep))
  {
    PendingChild(t0, keep, dup, cut, s, c);
    OpenChild(t0, dup, s);
    assert keep != dup by { OpenTree(t0, keep, dup, cut, s); }
    var t1 := Moved(s.t, c, keep);
    MovedSame(s.t, keep, c);
    SameTransitive(t0, s.t, t1);
    forall x | x in Kids(t1, dup)
      ensures x in Kids(s.t, dup)
    {
      assert Placed(s.t, x);
    }
  }

  lemma SameTransitive(t0: Tree, t1: Tree, t2: Tree)
    requires SameItems(t0, t1) && SameItems(t1, t2)
    ensures SameItems(t0, t2)
  {
  }

  lemma MovedKids(t: Tree, keep: Id, c: Id)
    requires Valid(t) && c in t.items && c != t.root && !t.items[c].trashed && keep in t.items
    requires Valid(Moved(t, c, keep))
    ensures Kids(Moved(t, c, keep), keep) == Kids(t, keep) + {c}
  {
    forall x | x in t.items
      ensures x in Kids(Moved(t, c, keep), keep) <==> x in Kids(t, keep) || x == c
    {
      assert Placed(t, x) && Placed(Moved(t, c, keep), x);
    }
  }

  lemma MoveTables(t0: Tree, keep: Id, dup: Id, cut: set<Id>, s: Loop, c: Id)
    requires TreeOk(t0, keep, dup, cut, s) && ChildOk(t0, dup, s) && TableOk(keep, s) && c in s.pending && c in s.t.items
    requires Valid(Moved(s.t, c, keep))
    ensures TableOk(keep, MovedOver(s, c, keep))
  {
    PendingChild(t0, keep, dup, cut, s, c);
    OpenTable(keep, s);
    MoveTableInv(keep, s, c);
  }

  lemma MoveTableInv(keep: Id, s: Loop, c: Id)
    requires Valid(s.t) && TableInv(keep, s) && keep in s.t.items
    requires c in s.t.items && c != s.t.root && !s.t.items[c].trashed && Valid(Moved(s.t, c, keep))
    ensures TableInv(keep, MovedOver(s, c, keep))
  {
    var t1 := Moved(s.t, c, keep);
    MovedKids(s.t, keep, c);
    assert Placed(t1, c);
    assert FileNames(t1, Kids(t1, keep)) == FileNames(s.t, Kids(s.t, keep) + {c});
    assert FolderNames(t1, Kids(t1, keep)) == FolderNames(s.t, Kids(s.t, keep) + {c});
    forall nm | nm in s.folders
      ensures Child(t1, keep, s.folders[nm])
    {
      assert Placed(t1, s.folders[nm]);
    }
  }

  lemma MoveOrigin(t0: Tree, keep: Id, dup: Id, s: Loop, c: Id)
    requires OriginOk(t0, keep, dup, s) && Valid(t0) && keep in s.t.items
    requires c in s.pending && c in Kids(t0, dup) && c in s.t.items && Valid(Moved(s.t, c, keep))
    requires if t0.items[c].folder then t0.items[c].name !in s.folders else t0.items[c].name !in s.files
    ensures OriginOk(t0, keep, dup, MovedOver(s, c, keep))
  {
    OpenOrigin(t0, keep, dup, s);
    MovedSame(s.t, keep, c);
    SameTransitive(t0, s.t, Moved(s.t, c, keep));
    MoveOriginInv(t0, keep, dup, s, c);
  }

  lemma MoveOriginInv(t0: Tree, keep: Id, dup: Id, s: Loop, c: Id)
    requires Valid(t0) && Valid(s.t) && SameItems(t0, s.t) && keep in s.t.items
    requires OriginInv(t0, keep, dup, s)
    requires c in s.pending && c in Kids(t0, dup) && Valid(Moved(s.t, c, keep)) && SameItems(t0, Moved(s.t, c, keep))
    requires if t0.items[c].folder then t0.items[c].name !in s.folders else t0.items[c].name !in s.files
    ensures OriginInv(t0, keep, dup, MovedOver(s, c, keep))
  {
    var done := Kids(t0, dup) - s.pending;
    assert Kids(t0, dup) - (s.pending - {c}) == done + {c};
    if t0.items[c].folder {
      AddFolder(t0, FileNames(t0, Kids(t0, keep)), done, c);
    } else {
      AddFile(t0, FileNames(t0, Kids(t0, keep)), done, c);
    }
  }

  lemma AfterMove(t0: Tree, keep: Id, dup: Id, cut: set<Id>, s: Loop, c: Id)
    requires LoopInv(t0, keep, dup, cut, s) && c in s.pending && c in s.t.items
    requires if s.t.items[c].folder then s.t.items[c].name !in s.folders else s.t.items[c].name !in s.files
    ensures LoopInv(t0, keep, dup, cut, MovedOver(s, c, keep))
  {
    PendingChild(t0, keep, dup, cut, s, c);
    MoveTree(t0, keep, dup, cut, s, c);
    MoveChildren(t0, keep, dup, cut, s, c);
    MoveTables(t0, keep, dup, cut, s, c);
    MoveOrigin(t0, keep, dup, s, c);
  }

  // The two ends of the loop

  lemma LoopStart(t: Tree, keep: Id, dup: Id, cut: set<Id>, folders: map<string, Id>)
    requires MergePre(t, keep, dup, cut)
    requires folders.Keys == FolderNames(t, Kids(t, keep))
    requires forall nm :: nm in folders ==> folders[nm] in Kids(t, keep) && t.items[folders[nm]].folder
                                            && t.items[folders[nm]].name == nm
    ensures LoopInv(t, keep, dup, cut, Loop(t, {}, Kids(t, dup), folders, FileNames(t, Kids(t, keep)), 0))
  {
    assert cut + {} == cut;
    assert Kids(t, dup) - Kids(t, dup) == {};
  }

  /** With every child dealt with, `dup` itself can be counted out. */
  lemma LoopEnd(t0: Tree, keep: Id, dup: Id, cut: set<Id>, s: Loop)
    requires LoopInv(t0, keep, dup, cut, s) && s.pending == {}
    ensures Valid(t0) && dup in t0.items && MergeStep(t0, s.t, keep, dup, cut)
    ensures (s.leftBehind > 0) == DirectClash(t0, keep, dup)
    ensures dup != t0.root && s.t.items[dup] == t0.items[dup] && !t0.items[dup].trashed
  {
    OpenTree(t0, keep, dup, cut, s);
    OpenChild(t0, dup, s);
    OpenOrigin(t0, keep, dup, s);
    assert Kids(t0, dup) - {} == Kids(t0, dup);
    CountOut(s.t, dup, cut, s.settled);
    assert Placed(t0, keep) && Placed(t0, dup);
  }

  lemma CountOut(t: Tree, dup: Id, cut: set<Id>, settled: set<Id>)
    requires Valid(t) && dup in t.items && t.items[dup].folder && Kids(t, dup) <= settled
    ensures LivePaths(t, cut + settled) <= LivePaths(t, cut + {dup})
  {
    forall p | p in LivePaths(t, cut + settled)
      ensures p in LivePaths(t, cut + {dup})
    {
      var x :| x in t.items && LiveFile(t, cut + settled, x) && t.path[x] == p;
      forall c | Child(t, dup, c)
        ensures c in cut + settled
      {
        assert c in Kids(t, dup);
      }
      CutEmptied(t, cut, cut + settled, dup, x);
      assert LiveFile(t, cut + {dup}, x);
    }
  }

  lemma TrashDup(t0: Tree, t: Tree, keep: Id, dup: Id, cut: set<Id>)
    requires Valid(t0) && dup in t0.items && dup != t0.root && MergeStep(t0, t, keep, dup, cut)
    ensures MergeStep(t0, Trashed(t, dup), keep, dup, cut)
  {
    var t1 := Trashed(t, dup);
    TrashedSame(t, dup);
    TrashPaths(t, dup, cut);
    RevivedTransitive(t0, t, t1);
    TwinsTransitive(t0, t, t1);
    TrashFrame(t0, t, dup);
  }

  lemma TrashFrame(t0: Tree, t: Tree, dup: Id)
    requires Valid(t0) && dup in t0.items && SameItems(t0, t) && Frame(t0, t, dup)
    ensures Frame(t0, Trashed(t, dup), dup)
  {
  }

  lemma TrashedSame(t: Tree, dup: Id)
    requires Valid(t) && dup in t.items && dup != t.root
    ensures Valid(Trashed(t, dup)) && SameItems(t, Trashed(t, dup)) && NoNewTwins(t, Trashed(t, dup))
    ensures NothingRevived(t, Trashed(t, dup))
  {
    TrashedValid(t, dup);
    forall x | x in t.items ensures Live(Trashed(t, dup), {}, x) ==> Live(t, {}, x) {
      TrashIsCut(t, {}, dup, x);
      LiveShrinksWithCut(t, {}, {} + {dup}, x);
    }
  }

  lemma TrashPaths(t: Tree, dup: Id, cut: set<Id>)
    requires Valid(t) && dup in t.items && dup != t.root && Valid(Trashed(t, dup))
    ensures LivePaths(Trashed(t, dup), cut + {dup}) == LivePaths(t, cut + {dup})
  {
    var t1 := Trashed(t, dup);
    forall x | x in t.items
      ensures Live(t1, cut + {dup}, x) == Live(t, cut + {dup}, x)
    {
      TrashIsCut(t, cut + {dup}, dup, x);
      assert cut + {dup} + {dup} == cut + {dup};
    }
    assert forall x :: LiveFile(t1, cut + {dup}, x) == LiveFile(t, cut + {dup}, x);
  }
}
