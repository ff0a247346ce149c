/**
 Which items a merge moves, and which it leaves, in scripts/drive-merge-dups.py: only what lies in the
 duplicate changes at all, and of the namesakes in it an oldest one gets the free place in the kept folder.
 */
module DriveOrder {
  import opened DriveTree
  import opened DriveMerge
  import opened DriveReport

  // -------- Only what lies in the duplicate changes

  /** Nothing outside `dup` changes, and nothing comes into it. */
  ghost predicate Inner(t: Tree, t': Tree, dup: Id)
  {
    && Valid(t) && Valid(t') && SameItems(t, t')
    && (forall x :: x in t.items && !Under(t, dup, x) ==> t'.items[x] == t.items[x])
    && (forall x :: x in t.items && Under(t', dup, x) ==> Under(t, dup, x))
  }

  lemma InnerNested(t0: Tree, t: Tree, t1: Tree, dup: Id, c: Id)
    requires Inner(t0, t, dup) && Inner(t, t1, c) && Child(t, dup, c) && dup in t.items
    ensures Inner(t0, t1, dup)
  {
    assert Under(t, dup, dup) && Under(t, dup, c);
    SameTransitive(t0, t, t1);
    forall x | x in t.items && !Under(t0, dup, x) ensures t1.items[x] == t0.items[x] {
      if Under(t, c, x) { UnderTransitive(t, dup, c, x); }
    }
    forall x | x in t.items && Under(t1, dup, x) ensures Under(t0, dup, x) {
      InnerShrinks(t, t1, dup, c, x);
    }
  }

  lemma {:induction false} InnerShrinks(t: Tree, t1: Tree, dup: Id, c: Id, x: Id)
    requires Inner(t, t1, c) && dup in t.items && c in t.items && Under(t, dup, c) && x in t.items && Under(t1, dup, x)
    ensures Under(t, dup, x)
    decreases |t.path[x]|
  {
    if Under(t, c, x) {
      UnderTransitive(t, dup, c, x);
    } else if x != dup {
      InnerShrinks(t, t1, dup, c, t1.items[x].parent);
      assert Placed(t, x);
    }
  }

  /** A change to `c` alone, which was in `dup`. */
  lemma InnerOne(t0: Tree, t: Tree, t1: Tree, dup: Id, c: Id)
    requires Inner(t0, t, dup) && dup in t.items && c in t.items && Under(t, dup, c)
    requires Valid(t1) && SameItems(t, t1) && forall x :: x in t.items && x != c ==> t1.items[x] == t.items[x]
    ensures Inner(t0, t1, dup)
  {
    SameTransitive(t0, t, t1);
    forall x | x in t.items && Under(t1, dup, x) ensures Under(t0, dup, x) {
      OneShrinks(t, t1, dup, c, x);
    }
  }

  lemma {:induction false} OneShrinks(t: Tree, t1: Tree, dup: Id, c: Id, x: Id)
    requires Valid(t) && Valid(t1) && SameItems(t, t1) && dup in t.items && c in t.items && Under(t, dup, c)
    requires forall y :: y in t.items && y != c ==> t1.items[y] == t.items[y]
    requires x in t.items && Under(t1, dup, x)
    ensures Under(t, dup, x)
    decreases |t.path[x]|
  {
    if x != dup && x != c {
      OneShrinks(t, t1, dup, c, t1.items[x].parent);
      assert Placed(t, x);
    }
  }

  /** Another folder of the same depth keeps all that is in it. */
  lemma BesideInner(t: Tree, t1: Tree, dup: Id, a: Id, x: Id)
    requires Inner(t, t1, dup) && dup in t.items && a in t.items && a != dup && |t.path[a]| == |t.path[dup]|
    requires x in t.items && Under(t, a, x)
    ensures t1.items[x] == t.items[x]
  {
    if Under(t, dup, x) { UnderOnce(t, a, dup, x); }
  }

  // -------- Which of the namesakes is moved

  /** What hangs under `folder` with this name and of this kind. */
  ghost function Named(t: Tree, folder: Id, nm: string, kind: bool): set<Id>
    requires Valid(t)
  {
    set x | x in Kids(t, folder) && t.items[x].name == nm && t.items[x].folder == kind
  }

  /** `m` is among `ids`, and none of them is older. */
  predicate OldestOf(t: Tree, ids: set<Id>, m: Id)
  {
    m in ids && m in t.items && forall x :: x in ids && x in t.items ==> t.items[m].created <= t.items[x].created
  }

  /** Of `ids`, namesakes in `dup`, one has gone to `keep`, an oldest of `all`, and the others have stayed. */
  ghost predicate OneWent(t: Tree, t': Tree, keep: Id, dup: Id, all: set<Id>, ids: set<Id>)
    requires t'.items.Keys == t.items.Keys
  {
    exists m ::
      && OldestOf(t, all, m) && m in ids && t'.items[m] == t.items[m].(parent := keep)
      && forall x :: x in ids && x in t.items && x != m ==> t'.items[x].parent == dup
  }

  /** The namesakes `ids`, of all in `dup`: none is moved if `keep` has one already, else an oldest one is. */
  ghost predicate Sorted(t: Tree, t': Tree, keep: Id, dup: Id, nm: string, kind: bool, ids: set<Id>)
    requires Valid(t) && t'.items.Keys == t.items.Keys
  {
    if Named(t, keep, nm, kind) != {} then forall x :: x in ids && x in t.items ==> t'.items[x].parent == dup
    else ids != {} ==> OneWent(t, t', keep, dup, Named(t, dup, nm, kind), ids)
  }

  /** What becomes of the children of `dup`. */
  ghost predicate MovesOldest(t: Tree, t': Tree, keep: Id, dup: Id)
    requires Valid(t) && t'.items.Keys == t.items.Keys
  {
    forall nm, kind :: Sorted(t, t', keep, dup, nm, kind, Named(t, dup, nm, kind))
  }

  ghost predicate OrderlyTo(t: Tree, t': Tree, keep: Id, dup: Id)
  {
    Inner(t, t', dup) && MovesOldest(t, t', keep, dup)
  }

  /** The same, folded. */
  ghost predicate Orderly(t: Tree, t': Tree, keep: Id, dup: Id)
  {
    forall x {:trigger OrderlyTo(t, x, keep, dup)} :: x == t' ==> OrderlyTo(t, x, keep, dup)
  }

  lemma OpenOrderly(t: Tree, t': Tree, keep: Id, dup: Id)
    requires Orderly(t, t', keep, dup)
    ensures OrderlyTo(t, t', keep, dup)
  {
  }

  // -------- The loop of merge_into

  /** The names taken in `keep` are those it had and those of the children dealt with; older children come first. */
  ghost predicate OrderInv(t0: Tree, keep: Id, dup: Id, s: Loop)
  {
    && Inner(t0, s.t, dup) && keep in t0.items && dup in t0.items && s.pending <= Kids(t0, dup)
    && OlderFirst(t0, dup, s) && NamesAre(t0, keep, dup, s)
    && (forall nm, kind :: Sorted(t0, s.t, keep, dup, nm, kind, Named(t0, dup, nm, kind) - s.pending))
  }

  ghost predicate OrderOk(t0: Tree, keep: Id, dup: Id, s: Loop)
  {
    forall x {:trigger OrderInv(t0, keep, dup, x)} :: x == s ==> OrderInv(t0, keep, dup, x)
  }

  lemma OpenOrder(t0: Tree, keep: Id, dup: Id, s: Loop)
    requires OrderOk(t0, keep, dup, s)
    ensures OrderInv(t0, keep, dup, s)
  {
  }

  lemma OrderStarts(t: Tree, keep: Id, dup: Id, s: Loop)
    requires Valid(t) && keep in t.items && dup in t.items && s.t == t && s.pending == Kids(t, dup)
    requires s.folders.Keys == FolderNames(t, Kids(t, keep)) && s.files == FileNames(t, Kids(t, keep))
    ensures OrderOk(t, keep, dup, s)
  {
    assert Kids(t, dup) - s.pending == {};
    forall nm, kind ensures Named(t, dup, nm, kind) - s.pending == {} {}
    assert OrderInv(t, keep, dup, s);
  }

  /** `c`, an oldest one pending, is next; its name is taken exactly if keep or an older child had it. */
  ghost predicate IsNext(t0: Tree, dup: Id, s: Loop, c: Id)
    requires Valid(t0)
  {
    c in s.pending && c in Kids(t0, dup) && forall x :: x in s.pending && x in t0.items ==> t0.items[c].created <= t0.items[x].created
  }

  predicate Taken(s: Loop, nm: string, kind: bool)
  {
    if kind then nm in s.folders else nm in s.files
  }

  lemma TakenIff(t0: Tree, keep: Id, dup: Id, s: Loop, nm: string, kind: bool)
    requires Valid(t0) && NamesAre(t0, keep, dup, s)
    ensures Taken(s, nm, kind) <==> Named(t0, keep, nm, kind) != {} || Named(t0, dup, nm, kind) - s.pending != {}
  {
    if Named(t0, keep, nm, kind) != {} {
      var x :| x in Named(t0, keep, nm, kind);
    }
    if Named(t0, dup, nm, kind) - s.pending != {} {
      var x :| x in Named(t0, dup, nm, kind) - s.pending;
      assert x in Kids(t0, dup) - s.pending;
    }
    if Taken(s, nm, kind) {
      var x :| x in t0.items && (x in Kids(t0, keep) || x in Kids(t0, dup) - s.pending)
               && t0.items[x].name == nm && t0.items[x].folder == kind;
      assert x in Named(t0, keep, nm, kind) || x in Named(t0, dup, nm, kind) - s.pending;
    }
  }

  /** One child dealt with: it has stayed if its name was taken, else it was moved. */
  ghost predicate DealtWith(t0: Tree, keep: Id, dup: Id, s: Loop, s': Loop, c: Id)
    requires c in t0.items && Valid(t0)
  {
    && s'.pending == s.pending - {c} && s'.t.items.Keys == t0.items.Keys == s.t.items.Keys
    && (forall x :: x in Kids(t0, dup) && x != c ==> s'.t.items[x] == s.t.items[x])
    && (if Taken(s, t0.items[c].name, t0.items[c].folder) then s'.t.items[c].parent == dup
        else s'.t.items[c] == t0.items[c].(parent := keep))
    && s'.folders.Keys == s.folders.Keys + (if t0.items[c].folder then {t0.items[c].name} else {})
    && s'.files == s.files + (if t0.items[c].folder then {} else {t0.items[c].name})
  }

  lemma SortedStays(t: Tree, t1: Tree, t2: Tree, keep: Id, dup: Id, nm: string, kind: bool, ids: set<Id>)
    requires Valid(t) && t1.items.Keys == t.items.Keys == t2.items.Keys && Sorted(t, t1, keep, dup, nm, kind, ids)
    requires forall x :: x in ids && x in t.items ==> t2.items[x] == t1.items[x]
    ensures Sorted(t, t2, keep, dup, nm, kind, ids)
  {
    if Named(t, keep, nm, kind) == {} && ids != {} {
      WentStays(t, t1, t2, keep, dup, Named(t, dup, nm, kind), ids);
    }
  }

  lemma WentStays(t: Tree, t1: Tree, t2: Tree, keep: Id, dup: Id, all: set<Id>, ids: set<Id>)
    requires t1.items.Keys == t.items.Keys == t2.items.Keys && OneWent(t, t1, keep, dup, all, ids)
    requires forall x :: x in ids && x in t.items ==> t2.items[x] == t1.items[x]
    ensures OneWent(t, t2, keep, dup, all, ids)
  {
  }

  lemma WentWith(t: Tree, t1: Tree, t2: Tree, keep: Id, dup: Id, all: set<Id>, ids: set<Id>, c: Id)
    requires t1.items.Keys == t.items.Keys == t2.items.Keys && OneWent(t, t1, keep, dup, all, ids)
    requires forall x :: x in ids && x in t.items && x != c ==> t2.items[x] == t1.items[x]
    requires c in t2.items && c !in ids && t2.items[c].parent == dup
    ensures OneWent(t, t2, keep, dup, all, ids + {c})
  {
    var m :| OldestOf(t, all, m) && m in ids && t1.items[m] == t.items[m].(parent := keep)
             && forall x :: x in ids && x in t.items && x != m ==> t1.items[x].parent == dup;
    assert m in ids + {c} && t2.items[m] == t.items[m].(parent := keep);
  }

  /** One more namesake, `c`, has stayed or has taken the free place. */
  lemma SortedWith(t: Tree, t1: Tree, t2: Tree, keep: Id, dup: Id, nm: string, kind: bool, ids: set<Id>, c: Id)
    requires Valid(t) && t1.items.Keys == t.items.Keys == t2.items.Keys && Sorted(t, t1, keep, dup, nm, kind, ids)
    requires forall x :: x in ids && x in t.items ==> t2.items[x] == t1.items[x]
    requires c in t.items && c !in ids
    requires if Named(t, keep, nm, kind) != {} || ids != {} then t2.items[c].parent == dup
             else t2.items[c] == t.items[c].(parent := keep) && OldestOf(t, Named(t, dup, nm, kind), c)
    ensures Sorted(t, t2, keep, dup, nm, kind, ids + {c})
  {
    if Named(t, keep, nm, kind) == {} {
      if ids != {} {
        WentWith(t, t1, t2, keep, dup, Named(t, dup, nm, kind), ids, c);
      } else {
        assert ids + {c} == {c};
        assert OneWent(t, t2, keep, dup, Named(t, dup, nm, kind), {c});
      }
    }
  }

  lemma SortedNext(t0: Tree, keep: Id, dup: Id, s: Loop, s': Loop, c: Id, nm: string, kind: bool)
    requires Valid(t0) && IsNext(t0, dup, s, c) && DealtWith(t0, keep, dup, s, s', c)
    requires Sorted(t0, s.t, keep, dup, nm, kind, Named(t0, dup, nm, kind) - s.pending)
    requires Taken(s, nm, kind) <==> Named(t0, keep, nm, kind) != {} || Named(t0, dup, nm, kind) - s.pending != {}
    ensures Sorted(t0, s'.t, keep, dup, nm, kind, Named(t0, dup, nm, kind) - s'.pending)
  {
    var all := Named(t0, dup, nm, kind);
    var ids := all - s.pending;
    forall x | x in ids ensures s'.t.items[x] == s.t.items[x] {
      assert x in Kids(t0, dup) && x != c;
    }
    if t0.items[c].name == nm && t0.items[c].folder == kind {
      assert all - s'.pending == ids + {c};
      if ids == {} {
        assert forall x :: x in all ==> x in s.pending || x in ids;
        assert c in all && OldestOf(t0, all, c);
      }
      SortedWith(t0, s.t, s'.t, keep, dup, nm, kind, ids, c);
    } else {
      assert all - s'.pending == ids;
      SortedStays(t0, s.t, s'.t, keep, dup, nm, kind, ids);
    }
  }

  lemma OrderNext(t0: Tree, keep: Id, dup: Id, s: Loop, s': Loop, c: Id)
    requires OrderInv(t0, keep, dup, s) && IsNext(t0, dup, s, c) && DealtWith(t0, keep, dup, s, s', c)
    requires Inner(t0, s'.t, dup)
    ensures OrderOk(t0, keep, dup, s')
  {
    forall nm, kind ensures Sorted(t0, s'.t, keep, dup, nm, kind, Named(t0, dup, nm, kind) - s'.pending) {
      TakenIff(t0, keep, dup, s, nm, kind);
      SortedNext(t0, keep, dup, s, s', c, nm, kind);
    }
    OrderNames(t0, keep, dup, s, s', c);
    OrderAges(t0, dup, s, s', c);
    assert OrderInv(t0, keep, dup, s');
  }

  ghost predicate NamesAre(t0: Tree, keep: Id, dup: Id, s: Loop)
    requires Valid(t0)
  {
    && s.folders.Keys == FolderNames(t0, Kids(t0, keep)) + FolderNames(t0, Kids(t0, dup) - s.pending)
    && s.files == FileNames(t0, Kids(t0, keep)) + FileNames(t0, Kids(t0, dup) - s.pending)
  }

  ghost predicate OlderFirst(t0: Tree, dup: Id, s: Loop)
    requires Valid(t0)
  {
    forall p, q :: p in Kids(t0, dup) - s.pending && q in s.pending && p in t0.items && q in t0.items ==>
      t0.items[p].created <= t0.items[q].created
  }

  lemma OrderNames(t0: Tree, keep: Id, dup: Id, s: Loop, s': Loop, c: Id)
    requires Valid(t0) && NamesAre(t0, keep, dup, s) && c in Kids(t0, dup) && DealtWith(t0, keep, dup, s, s', c)
    ensures NamesAre(t0, keep, dup, s')
  {
    var done := Kids(t0, dup) - s.pending;
    assert Kids(t0, dup) - s'.pending == done + {c};
    OneName(t0, done, c);
  }

  lemma OrderAges(t0: Tree, dup: Id, s: Loop, s': Loop, c: Id)
    requires Valid(t0) && OlderFirst(t0, dup, s) && IsNext(t0, dup, s, c) && s'.pending == s.pending - {c}
    ensures OlderFirst(t0, dup, s')
  {
  }

  lemma OneName(t: Tree, ids: set<Id>, c: Id)
    requires c in t.items
    ensures FolderNames(t, ids + {c}) == FolderNames(t, ids) + if t.items[c].folder then {t.items[c].name} else {}
    ensures FileNames(t, ids + {c}) == FileNames(t, ids) + if t.items[c].folder then {} else {t.items[c].name}
  {
  }

  // The three things that can happen to the next child

  predicate OldestPending(s: Loop, c: Id)
  {
    c in s.pending && c in s.t.items && forall x :: x in s.pending && x in s.t.items ==> s.t.items[c].created <= s.t.items[x].created
  }

  lemma NextOf(t0: Tree, keep: Id, dup: Id, cut: set<Id>, s: Loop, c: Id)
    requires TreeOk(t0, keep, dup, cut, s) && ChildOk(t0, dup, s) && OldestPending(s, c)
    ensures Valid(t0) && Valid(s.t) && SameItems(t0, s.t) && dup in t0.items && keep in t0.items && keep != dup
    ensures t0.path[keep] == t0.path[dup] && IsNext(t0, dup, s, c) && s.t.items[c] == t0.items[c] && Child(s.t, dup, c)
  {
    PendingChild(t0, keep, dup, cut, s, c);
    OpenTree(t0, keep, dup, cut, s);
    OpenChild(t0, dup, s);
  }

  lemma OrderAfterNested(t0: Tree, t1: Tree, keep: Id, dup: Id, cut: set<Id>, s: Loop, k: Id, c: Id)
    requires TreeOk(t0, keep, dup, cut, s) && ChildOk(t0, dup, s) && OrderOk(t0, keep, dup, s) && OldestPending(s, c)
    requires Valid(s.t) && s.t.items[c].folder && s.t.items[c].name in s.folders
    requires Step(s.t, t1, c) && Orderly(s.t, t1, k, c)
    ensures OrderOk(t0, keep, dup, Nested(s, t1, c))
  {
    NextOf(t0, keep, dup, cut, s, c);
    OpenOrder(t0, keep, dup, s);
    assert Inner(s.t, t1, c) by { OpenOrderly(s.t, t1, k, c); }
    InnerNested(t0, s.t, t1, dup, c);
    NestedDealt(t0, t1, keep, dup, s, c);
    OrderNext(t0, keep, dup, s, Nested(s, t1, c), c);
  }

  lemma NestedDealt(t0: Tree, t1: Tree, keep: Id, dup: Id, s: Loop, c: Id)
    requires Valid(t0) && Valid(s.t) && SameItems(t0, s.t) && dup in t0.items && c in t0.items && Child(t0, dup, c)
    requires s.t.items[c] == t0.items[c] && Step(s.t, t1, c) && s.t.items[c].folder && s.t.items[c].name in s.folders
    ensures DealtWith(t0, keep, dup, s, Nested(s, t1, c), c)
  {
    forall x | x in Kids(t0, dup) && x != c ensures t1.items[x] == s.t.items[x] {
      BesideUntouched(t0, s.t, t1, dup, c, x);
    }
  }

  lemma OrderAfterConflict(t0: Tree, keep: Id, dup: Id, cut: set<Id>, s: Loop, c: Id)
    requires TreeOk(t0, keep, dup, cut, s) && ChildOk(t0, dup, s) && OrderOk(t0, keep, dup, s) && OldestPending(s, c)
    requires !s.t.items[c].folder && s.t.items[c].name in s.files
    ensures OrderOk(t0, keep, dup, LeftBehind(s, c))
  {
    NextOf(t0, keep, dup, cut, s, c);
    OpenOrder(t0, keep, dup, s);
    OrderNext(t0, keep, dup, s, LeftBehind(s, c), c);
  }

  lemma OrderAfterMove(t0: Tree, keep: Id, dup: Id, cut: set<Id>, s: Loop, c: Id)
    requires TreeOk(t0, keep, dup, cut, s) && ChildOk(t0, dup, s) && OrderOk(t0, keep, dup, s) && OldestPending(s, c)
    requires Valid(Moved(s.t, c, keep)) && !Taken(s, s.t.items[c].name, s.t.items[c].folder)
    ensures OrderOk(t0, keep, dup, MovedOver(s, c, keep))
  {
    NextOf(t0, keep, dup, cut, s, c);
    OpenOrder(t0, keep, dup, s);
    MovedSame(s.t, keep, c);
    assert Under(s.t, dup, dup) && Under(s.t, dup, c);
    InnerOne(t0, s.t, Moved(s.t, c, keep), dup, c);
    OrderNext(t0, keep, dup, s, MovedOver(s, c, keep), c);
  }

  lemma OrderEnd(t0: Tree, keep: Id, dup: Id, s: Loop)
    requires OrderOk(t0, keep, dup, s) && s.pending == {}
    ensures Orderly(t0, s.t, keep, dup)
  {
    OpenOrder(t0, keep, dup, s);
    forall nm, kind ensures Sorted(t0, s.t, keep, dup, nm, kind, Named(t0, dup, nm, kind)) {
      assert Named(t0, dup, nm, kind) - s.pending == Named(t0, dup, nm, kind);
    }
    assert OrderlyTo(t0, s.t, keep, dup);
  }

  /** Trashing `dup` itself changes none of its children. */
  lemma OrderTrashed(t0: Tree, t: Tree, keep: Id, dup: Id)
    requires Orderly(t0, t, keep, dup) && Valid(t) && dup in t.items && dup != t.root && keep in t.items
    ensures Orderly(t0, Trashed(t, dup), keep, dup)
  {
    OpenOrderly(t0, t, keep, dup);
    TrashedSame(t, dup);
    assert Under(t, dup, dup);
    InnerOne(t0, t, Trashed(t, dup), dup, dup);
    var t1 := Trashed(t, dup);
    forall nm, kind ensures Sorted(t0, t1, keep, dup, nm, kind, Named(t0, dup, nm, kind)) {
      var ids := Named(t0, dup, nm, kind);
      assert Sorted(t0, t, keep, dup, nm, kind, ids);
      forall x | x in ids ensures t1.items[x] == t.items[x] {
        ChildPath(t0, dup, x);
      }
      SortedStays(t0, t, t1, keep, dup, nm, kind, ids);
    }
    assert OrderlyTo(t0, t1, keep, dup);
  }
}
