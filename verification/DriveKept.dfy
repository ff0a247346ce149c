/**
 Which folders a run of scripts/drive-merge-dups.py keeps: from the folder walked downwards, in every group of
 same-name folders an oldest one, unchanged, and in it what had no place there yet.
 */
module DriveKept {
  import opened DriveTree
  import opened DriveMerge
  import opened DriveReport
  import opened DriveInside
  import opened DriveLoss
  import opened DrivePairs
  import opened DriveOrder
  import opened DriveGroup

  /** A free place in `k` has been filled by an oldest of what an oldest of the folders `from` had for it. */
  ghost predicate EndsIn(t: Tree, t': Tree, k: Id, from: set<Id>, nm: string, kind: bool)
    requires Valid(t)
  {
    exists d, m ::
      && OldestOf(t, Having(t, from, nm, kind), d) && OldestOf(t, Named(t, d, nm, kind), m)
      && m in t'.items && t'.items[m].parent == k && (!kind ==> t'.items[m] == t.items[m].(parent := k))
  }

  ghost predicate Gathers(t: Tree, t': Tree, group: set<Id>, k: Id)
    requires Valid(t)
  {
    forall nm, kind :: Named(t, k, nm, kind) == {} && Having(t, group - {k}, nm, kind) != {} ==>
      EndsIn(t, t', k, group - {k}, nm, kind)
  }

  ghost predicate OneOldest(t: Tree, f: Id, nm: string, kept: set<Id>)
    requires Valid(t)
  {
    exists k :: k in kept && OldestOf(t, Group(t, f, nm), k)
  }

  /** `f` is as it was, it hangs in a folder kept, and of every group in it an oldest folder is kept. */
  ghost predicate KeptAt(t: Tree, t': Tree, d: Id, todo: set<string>, kept: set<Id>, f: Id)
    requires Valid(t) && t'.items.Keys == t.items.Keys
  {
    && f in t.items && t'.items[f] == t.items[f] && t.items[f].folder && Under(t, d, f)
    && (f != d ==> t.items[f].parent in kept && FirstName(t, d, f) !in todo)
    && (forall nm :: Group(t, f, nm) != {} && (f == d ==> nm !in todo) ==> OneOldest(t, f, nm, kept))
  }

  predicate SamePlace(t: Tree, d: Id, k: Id, x: Id)
    requires k in t.items && x in t.items
  {
    k != d && x != d && t.items[k].parent == t.items[x].parent && t.items[k].name == t.items[x].name
  }

  predicate OnePerName(t: Tree, d: Id, kept: set<Id>)
  {
    forall k, x :: k in kept && x in kept && k in t.items && x in t.items && SamePlace(t, d, k, x) ==> k == x
  }

  /** `kept` are the folders kept by a walk of `d`, apart from the names `todo` of its groups still to come. */
  ghost predicate Chosen(t: Tree, t': Tree, d: Id, todo: set<string>, kept: set<Id>)
  {
    && Valid(t) && Valid(t') && SameItems(t, t') && d in kept && d in t.items
    && (forall f :: f in kept ==> KeptAt(t, t', d, todo, kept, f))
    && OnePerName(t, d, kept)
    && (forall k :: k in kept && k in Kids(t, d) ==> Gathers(t, t', Group(t, d, t.items[k].name), k))
  }

  /** The children of `d` stay in it; the files among them are as they were. */
  ghost predicate KidsStay(t: Tree, t': Tree, d: Id)
    requires Valid(t) && t'.items.Keys == t.items.Keys
  {
    forall x :: x in Kids(t, d) ==> t'.items[x].parent == d && (!t.items[x].folder ==> t'.items[x] == t.items[x])
  }

  ghost predicate KeepingAt(t: Tree, t': Tree, d: Id, todo: set<string>)
  {
    && Valid(t) && t'.items.Keys == t.items.Keys && KidsStay(t, t', d)
    && exists kept :: Chosen(t, t', d, todo, kept)
  }

  /** The same, folded. */
  ghost predicate Keeping(t: Tree, t': Tree, d: Id, todo: set<string>)
  {
    forall x {:trigger KeepingAt(t, x, d, todo)} :: x == t' ==> KeepingAt(t, x, d, todo)
  }

  lemma OpenKeeping(t: Tree, t': Tree, d: Id, todo: set<string>)
    requires Keeping(t, t', d, todo)
    ensures KeepingAt(t, t', d, todo)
  {
  }

  lemma KeepingStarts(t: Tree, d: Id)
    requires Valid(t) && d in t.items && t.items[d].folder
    ensures Keeping(t, t, d, FolderNames(t, Kids(t, d)))
  {
    forall nm | nm !in FolderNames(t, Kids(t, d)) ensures Group(t, d, nm) == {} {
      assert forall x :: x in Kids(t, d) && t.items[x].folder ==> t.items[x].name in FolderNames(t, Kids(t, d));
    }
    assert Under(t, d, d) && KeptAt(t, t, d, FolderNames(t, Kids(t, d)), {d}, d);
    assert d !in Kids(t, d) by { NotOwnKid(t, d); }
    assert Chosen(t, t, d, FolderNames(t, Kids(t, d)), {d});
    assert KeepingAt(t, t, d, FolderNames(t, Kids(t, d)));
  }

  lemma NotOwnKid(t: Tree, d: Id)
    requires Valid(t) && d in t.items
    ensures d !in Kids(t, d)
  {
    assert Placed(t, d);
  }

  // -------- One group: merged from `ta` to `tb`, and its kept folder walked from there to `tc`

  /** What one turn of the loop of walk is: nothing but the group named `nm` and what is below changes. */
  ghost predicate Turn(t0: Tree, ta: Tree, tb: Tree, tc: Tree, d: Id, nm: string, keep: Id)
  {
    && Valid(t0) && Valid(ta) && Valid(tb) && Valid(tc) && SameItems(t0, ta) && SameItems(ta, tb) && SameItems(tb, tc)
    && d in t0.items && keep in Group(t0, d, nm)
    && Alike(t0, ta, t0.path[d] + [nm]) && (forall x :: x in Group(t0, d, nm) ==> ta.items[x] == t0.items[x])
    && NoNewTwins(ta, tb) && GroupKeeps(ta, tb, Group(t0, d, nm), keep, {})
    && (forall x :: x in t0.items && x !in Group(t0, d, nm) && !Below(t0.path[d] + [nm], t0.path[x]) ==>
          tc.items[x] == ta.items[x])
  }

  /** What lay in the kept folder from the start is still there when it is walked. */
  lemma StillInside(t0: Tree, ta: Tree, tb: Tree, tc: Tree, d: Id, nm: string, keep: Id, x: Id)
    requires Turn(t0, ta, tb, tc, d, nm, keep) && x in t0.items && Under(t0, keep, x)
    ensures ta.items[x] == t0.items[x] && tb.items[x] == t0.items[x] && Under(tb, keep, x)
    ensures t0.path[x] == t0.path[d] + [nm] || Below(t0.path[d] + [nm], t0.path[x])
  {
    ChildPath(t0, d, keep);
    UnderIsBelow(t0, keep, x);
    UnderAlike(t0, ta, t0.path[keep], keep, x);
    UnderStays(ta, tb, keep, x);
  }

  lemma SameGroup(t0: Tree, ta: Tree, tb: Tree, tc: Tree, d: Id, nm: string, keep: Id, f: Id, n: string)
    requires Turn(t0, ta, tb, tc, d, nm, keep) && f in t0.items && Under(t0, keep, f) && Group(t0, f, n) != {}
    ensures Group(tb, f, n) == Group(t0, f, n)
    ensures forall x :: x in Group(t0, f, n) ==> Under(t0, keep, x) && tb.items[x] == t0.items[x]
  {
    forall x | x in Group(t0, f, n) ensures x in Group(tb, f, n) && Under(t0, keep, x) && tb.items[x] == t0.items[x] {
      StillInside(t0, ta, tb, tc, d, nm, keep, x);
      assert Placed(tb, x);
    }
    var a :| a in Group(t0, f, n);
    StillInside(t0, ta, tb, tc, d, nm, keep, a);
    forall y | y in Group(tb, f, n) ensures y in Group(t0, f, n) {
      WasThere(t0, ta, tb, tc, d, nm, keep, f, n, a, y);
    }
  }

  /** A merge brings no folder next to a namesake that was there. */
  lemma WasThere(t0: Tree, ta: Tree, tb: Tree, tc: Tree, d: Id, nm: string, keep: Id, f: Id, n: string, a: Id, y: Id)
    requires Turn(t0, ta, tb, tc, d, nm, keep) && f in t0.items && Under(t0, keep, f) && a in Group(t0, f, n)
    requires ta.items[a] == t0.items[a] && tb.items[a] == t0.items[a] && y in Group(tb, f, n)
    ensures y in Group(t0, f, n)
  {
    assert Placed(tb, y) && Placed(t0, a) && t0.path[y] == t0.path[a];
    assert y == a || ta.items[y].parent == ta.items[a].parent;
    ChildPath(t0, d, keep);
    UnderIsBelow(t0, keep, f);
    ChildPath(t0, f, a);
    assert Below(t0.path[d] + [nm], t0.path[y]) by {
      if f != keep { BelowTransitive(t0.path[keep], t0.path[f], t0.path[a]); }
    }
    assert ta.items[y] == t0.items[y] && Placed(t0, y);
  }

  /** Of what a walk of the kept folder keeps, that which lay in it from the start. */
  ghost function Carried(t0: Tree, keep: Id, inner: set<Id>): set<Id>
    requires Valid(t0)
  {
    set f | f in inner && f in t0.items && Under(t0, keep, f)
  }

  lemma OlderSame(t0: Tree, ta: Tree, tb: Tree, tc: Tree, d: Id, todo: set<string>, nm: string, keep: Id, f: Id)
    requires Turn(t0, ta, tb, tc, d, nm, keep) && nm in todo && f in t0.items && Under(t0, d, f)
    requires f != d ==> FirstName(t0, d, f) !in todo
    ensures tc.items[f] == ta.items[f] && keep in t0.items && tc.items.Keys == t0.items.Keys
  {
    UnderIsBelow(t0, d, f);
    if f != d {
      NotThere(t0, d, nm, f);
    } else {
      NotOwnKid(t0, d);
    }
  }

  /** The folders kept before stay kept. */
  lemma OlderKept(t0: Tree, ta: Tree, tb: Tree, tc: Tree, d: Id, todo: set<string>, nm: string, keep: Id,
                  kept: set<Id>, inner: set<Id>, f: Id)
    requires Turn(t0, ta, tb, tc, d, nm, keep) && nm in todo && f in kept && d in kept
    requires KeptAt(t0, ta, d, todo, kept, f) && keep in inner
    ensures KeptAt(t0, tc, d, todo - {nm}, kept + Carried(t0, keep, inner), f)
  {
    var all := kept + Carried(t0, keep, inner);
    OlderSame(t0, ta, tb, tc, d, todo, nm, keep, f);
    assert keep in all by { assert Under(t0, keep, keep); }
    forall n | Group(t0, f, n) != {} && (f == d ==> n !in todo - {nm}) ensures OneOldest(t0, f, n, all) {
      if f == d && n == nm {
        assert OldestOf(t0, Group(t0, d, nm), keep) by { KeepOldest(t0, ta, tb, tc, d, nm, keep); }
      } else {
        var k :| k in kept && OldestOf(t0, Group(t0, f, n), k);
        assert k in all;
      }
    }
  }

  lemma KeepOldest(t0: Tree, ta: Tree, tb: Tree, tc: Tree, d: Id, nm: string, keep: Id)
    requires Turn(t0, ta, tb, tc, d, nm, keep)
    ensures OldestOf(t0, Group(t0, d, nm), keep)
  {
  }

  /** An item below another name of `d` is neither in the group nor below it. */
  lemma NotThere(t: Tree, d: Id, nm: string, f: Id)
    requires Valid(t) && d in t.items && f in t.items && Below(t.path[d], t.path[f]) && FirstName(t, d, f) != nm
    ensures f !in Group(t, d, nm) && !Below(t.path[d] + [nm], t.path[f])
  {
    if Below(t.path[d] + [nm], t.path[f]) {
      NameOnTheWay(t.path[d], nm, t.path[f]);
    }
  }

  /** What lies in the kept folder lies below its name. */
  lemma InsideName(t: Tree, d: Id, nm: string, keep: Id, f: Id)
    requires Valid(t) && d in t.items && keep in Group(t, d, nm) && f in t.items && Under(t, keep, f)
    ensures Under(t, d, f) && FirstName(t, d, f) == nm && |t.path[f]| > |t.path[d]| && (f != keep ==> |t.path[f]| > |t.path[d]| + 1)
  {
    ChildPath(t, d, keep);
    assert Under(t, d, d) && Under(t, d, keep);
    UnderTransitive(t, d, keep, f);
    UnderIsBelow(t, keep, f);
    if f != keep {
      NameOnTheWay(t.path[d], nm, t.path[f]);
    }
  }

  /** The folders kept in the kept folder are kept. */
  lemma InnerKept(t0: Tree, ta: Tree, tb: Tree, tc: Tree, d: Id, todo: set<string>, nm: string, keep: Id,
                  kept: set<Id>, inner: set<Id>, f: Id)
    requires Turn(t0, ta, tb, tc, d, nm, keep) && nm in todo && d in kept
    requires f in Carried(t0, keep, inner) && KeptAt(tb, tc, keep, {}, inner, f)
    ensures KeptAt(t0, tc, d, todo - {nm}, kept + Carried(t0, keep, inner), f)
  {
    var all := kept + Carried(t0, keep, inner);
    StillInside(t0, ta, tb, tc, d, nm, keep, f);
    InsideName(t0, d, nm, keep, f);
    if f != keep {
      var up := t0.items[f].parent;
      assert up in Carried(t0, keep, inner);
    }
    forall n | Group(t0, f, n) != {} ensures OneOldest(t0, f, n, all) {
      SameGroup(t0, ta, tb, tc, d, nm, keep, f, n);
      assert OneOldest(tb, f, n, inner);
      OldestCarried(t0, tb, keep, inner, f, n);
      var k :| k in Carried(t0, keep, inner) && OldestOf(t0, Group(t0, f, n), k);
      assert k in all;
    }
  }

  lemma OldestCarried(t0: Tree, tb: Tree, keep: Id, inner: set<Id>, f: Id, n: string)
    requires Valid(t0) && Valid(tb) && tb.items.Keys == t0.items.Keys && Group(tb, f, n) == Group(t0, f, n)
    requires forall x :: x in Group(t0, f, n) ==> Under(t0, keep, x) && tb.items[x].created == t0.items[x].created
    requires OneOldest(tb, f, n, inner)
    ensures OneOldest(t0, f, n, Carried(t0, keep, inner))
  {
    var k :| k in inner && OldestOf(tb, Group(tb, f, n), k);
    assert k in Carried(t0, keep, inner) && OldestOf(t0, Group(t0, f, n), k);
  }

  /** `f` was kept before the turn, or in the kept folder. */
  ghost predicate Side(t0: Tree, tb: Tree, d: Id, nm: string, keep: Id, kept: set<Id>, inner: set<Id>, f: Id)
    requires Valid(t0) && tb.items.Keys == t0.items.Keys && d in t0.items
  {
    && f in t0.items && (f != d ==> Placed(t0, f) && f != t0.root)
    && if f in kept then f == d || FirstName(t0, d, f) != nm
       else f in inner && f != d && tb.items[f] == t0.items[f] && FirstName(t0, d, f) == nm
            && (f != keep ==> |t0.path[f]| > |t0.path[d]| + 1)
  }

  lemma SideOf(t0: Tree, ta: Tree, tb: Tree, tc: Tree, d: Id, todo: set<string>, nm: string, keep: Id,
               kept: set<Id>, inner: set<Id>, f: Id)
    requires Turn(t0, ta, tb, tc, d, nm, keep) && nm in todo && f in kept + Carried(t0, keep, inner)
    requires f in kept ==> f in t0.items && Under(t0, d, f) && (f != d ==> FirstName(t0, d, f) !in todo)
    ensures d in t0.items && Side(t0, tb, d, nm, keep, kept, inner, f)
  {
    if f in kept {
      if f != d { NotRoot(t0, d, f); }
    } else {
      StillInside(t0, ta, tb, tc, d, nm, keep, f);
      InsideName(t0, d, nm, keep, f);
      NotRoot(t0, d, f);
    }
  }

  lemma OneOfTwo(t0: Tree, tb: Tree, d: Id, nm: string, keep: Id, kept: set<Id>, inner: set<Id>, k: Id, x: Id)
    requires Valid(t0) && tb.items.Keys == t0.items.Keys && d in t0.items && keep in t0.items
    requires |t0.path[keep]| == |t0.path[d]| + 1
    requires Side(t0, tb, d, nm, keep, kept, inner, k) && Side(t0, tb, d, nm, keep, kept, inner, x)
    requires OnePerName(t0, d, kept) && OnePerName(tb, keep, inner) && SamePlace(t0, d, k, x)
    ensures k == x
  {
    assert t0.path[k] == t0.path[x] && FirstName(t0, d, k) == FirstName(t0, d, x);
  }

  lemma OneStill(t0: Tree, ta: Tree, tb: Tree, tc: Tree, d: Id, todo: set<string>, nm: string, keep: Id,
                 kept: set<Id>, inner: set<Id>)
    requires Turn(t0, ta, tb, tc, d, nm, keep) && nm in todo && OnePerName(t0, d, kept) && OnePerName(tb, keep, inner)
    requires forall f :: f in kept ==> f in t0.items && Under(t0, d, f) && (f != d ==> FirstName(t0, d, f) !in todo)
    ensures OnePerName(t0, d, kept + Carried(t0, keep, inner))
  {
    var all := kept + Carried(t0, keep, inner);
    ChildPath(t0, d, keep);
    forall k, x | k in all && x in all && k in t0.items && x in t0.items && SamePlace(t0, d, k, x) ensures k == x {
      SideOf(t0, ta, tb, tc, d, todo, nm, keep, kept, inner, k);
      SideOf(t0, ta, tb, tc, d, todo, nm, keep, kept, inner, x);
      OneOfTwo(t0, tb, d, nm, keep, kept, inner, k, x);
    }
  }

  lemma NotRoot(t: Tree, d: Id, x: Id)
    requires Valid(t) && d in t.items && x in t.items && Under(t, d, x) && x != d
    ensures x != t.root
  {
    UnderIsBelow(t, d, x);
  }

  // -------- What came to the kept folders

  lemma SameNames(t0: Tree, ta: Tree, p: Path, f: Id, nm: string, kind: bool)
    requires Valid(t0) && Valid(ta) && Alike(t0, ta, p) && f in t0.items && t0.path[f] == p
    ensures Named(ta, f, nm, kind) == Named(t0, f, nm, kind)
  {
    KidsAlike(t0, ta, p, f);
    forall x | x in Kids(t0, f) ensures ta.items[x] == t0.items[x] { ChildPath(t0, f, x); }
  }

  lemma EndsInStays(t0: Tree, ta: Tree, tc: Tree, k: Id, from: set<Id>, n: string, kind: bool)
    requires Valid(t0) && EndsIn(t0, ta, k, from, n, kind) && tc.items.Keys == ta.items.Keys == t0.items.Keys
    requires forall d, m :: d in from && m in Named(t0, d, n, kind) ==> tc.items[m] == ta.items[m]
    ensures EndsIn(t0, tc, k, from, n, kind)
  {
    var e, m :| OldestOf(t0, Having(t0, from, n, kind), e) && OldestOf(t0, Named(t0, e, n, kind), m)
                && m in ta.items && ta.items[m].parent == k && (!kind ==> ta.items[m] == t0.items[m].(parent := k));
    assert e in from && tc.items[m] == ta.items[m];
  }

  lemma OlderGathers(t0: Tree, ta: Tree, tb: Tree, tc: Tree, d: Id, nm: string, keep: Id, k: Id)
    requires Turn(t0, ta, tb, tc, d, nm, keep) && k in Kids(t0, d) && t0.items[k].name != nm
    requires Gathers(t0, ta, Group(t0, d, t0.items[k].name), k)
    ensures Gathers(t0, tc, Group(t0, d, t0.items[k].name), k)
  {
    var group := Group(t0, d, t0.items[k].name);
    forall n, kind | Named(t0, k, n, kind) == {} && Having(t0, group - {k}, n, kind) != {}
      ensures EndsIn(t0, tc, k, group - {k}, n, kind)
    {
      forall e, m | e in group - {k} && m in Named(t0, e, n, kind) ensures tc.items[m] == ta.items[m] {
        ElsewhereName(t0, d, nm, e, m);
      }
      EndsInStays(t0, ta, tc, k, group - {k}, n, kind);
    }
  }

  lemma ElsewhereName(t: Tree, d: Id, nm: string, e: Id, m: Id)
    requires Valid(t) && d in t.items && e in Kids(t, d) && t.items[e].name != nm && m in Kids(t, e)
    ensures m !in Group(t, d, nm) && !Below(t.path[d] + [nm], t.path[m])
  {
    ChildPath(t, d, e);
    ChildPath(t, e, m);
    assert t.path[m][|t.path[d]|] == t.items[e].name;
    assert FirstName(t, d, m) != nm && Below(t.path[d], t.path[m]);
    NotThere(t, d, nm, m);
  }

  lemma GroupAlike(t0: Tree, ta: Tree, d: Id, nm: string, n: string, kind: bool)
    requires Valid(t0) && Valid(ta) && d in t0.items && Alike(t0, ta, t0.path[d] + [nm])
    ensures forall e :: e in Group(t0, d, nm) ==> Named(ta, e, n, kind) == Named(t0, e, n, kind) && e in t0.items
    ensures forall e, m :: e in Group(t0, d, nm) && m in Kids(t0, e) ==> ta.items[m] == t0.items[m]
  {
    forall e | e in Group(t0, d, nm) ensures Named(ta, e, n, kind) == Named(t0, e, n, kind) && e in t0.items {
      ChildPath(t0, d, e);
      SameNames(t0, ta, t0.path[d] + [nm], e, n, kind);
    }
    forall e, m | e in Group(t0, d, nm) && m in Kids(t0, e) ensures ta.items[m] == t0.items[m] {
      ChildPath(t0, d, e);
      ChildPath(t0, e, m);
    }
  }

  lemma MergeBrought(t0: Tree, ta: Tree, tb: Tree, tc: Tree, d: Id, nm: string, keep: Id, n: string, kind: bool)
    requires Turn(t0, ta, tb, tc, d, nm, keep)
    ensures Arrived(ta, tb, Group(t0, d, nm), keep, {}, n, kind)
    ensures Valid(t0) && Valid(ta) && Valid(tb) && SameItems(t0, ta) && SameItems(ta, tb) && SameItems(tb, tc)
    ensures d in t0.items && Alike(t0, ta, t0.path[d] + [nm]) && keep in Group(t0, d, nm)
  {
  }

  /** What the merge brought into the kept folder stays in it. */
  lemma KeepGathers(t0: Tree, ta: Tree, tb: Tree, tc: Tree, d: Id, nm: string, keep: Id)
    requires Turn(t0, ta, tb, tc, d, nm, keep) && KidsStay(tb, tc, keep)
    ensures Gathers(t0, tc, Group(t0, d, nm), keep)
  {
    var group := Group(t0, d, nm);
    forall n, kind | Named(t0, keep, n, kind) == {} && Having(t0, group - {keep}, n, kind) != {}
      ensures EndsIn(t0, tc, keep, group - {keep}, n, kind)
    {
      MergeBrought(t0, ta, tb, tc, d, nm, keep, n, kind);
      PlaceGathers(t0, ta, tb, tc, d, nm, keep, n, kind);
    }
  }

  lemma SameHaving(t0: Tree, ta: Tree, from: set<Id>, n: string, kind: bool)
    requires Valid(t0) && Valid(ta) && forall e :: e in from ==> Named(ta, e, n, kind) == Named(t0, e, n, kind)
    ensures Having(ta, from, n, kind) == Having(t0, from, n, kind)
  {
  }

  lemma PlaceGathers(t0: Tree, ta: Tree, tb: Tree, tc: Tree, d: Id, nm: string, keep: Id, n: string, kind: bool)
    requires Valid(t0) && Valid(ta) && Valid(tb) && SameItems(t0, ta) && SameItems(ta, tb) && SameItems(tb, tc)
    requires d in t0.items && Alike(t0, ta, t0.path[d] + [nm]) && keep in Group(t0, d, nm) && KidsStay(tb, tc, keep)
    requires Arrived(ta, tb, Group(t0, d, nm), keep, {}, n, kind)
    requires Named(t0, keep, n, kind) == {} && Having(t0, Group(t0, d, nm) - {keep}, n, kind) != {}
    ensures EndsIn(t0, tc, keep, Group(t0, d, nm) - {keep}, n, kind)
  {
    var from := Group(t0, d, nm) - {keep};
    GroupAlike(t0, ta, d, nm, n, kind);
    assert forall e :: e in from ==> e in Group(t0, d, nm);
    assert Named(ta, keep, n, kind) == {};
    SameHaving(t0, ta, from, n, kind);
    assert from - {} == from;
    CameEnds(t0, ta, tb, tc, keep, from, n, kind);
  }

  lemma CameEnds(t0: Tree, ta: Tree, tb: Tree, tc: Tree, keep: Id, from: set<Id>, n: string, kind: bool)
    requires Valid(t0) && Valid(ta) && Valid(tb) && SameItems(t0, ta) && SameItems(ta, tb) && SameItems(tb, tc)
    requires CameFrom(ta, tb, keep, from, n, kind) && KidsStay(tb, tc, keep)
    requires Having(ta, from, n, kind) == Having(t0, from, n, kind)
    requires forall e :: e in from ==> Named(ta, e, n, kind) == Named(t0, e, n, kind)
    requires forall e, m :: e in from && m in Kids(t0, e) ==> ta.items[m] == t0.items[m]
    ensures EndsIn(t0, tc, keep, from, n, kind)
  {
    var e, m :| OldestOf(ta, Having(ta, from, n, kind), e) && OldestOf(ta, Named(ta, e, n, kind), m)
                && m in tb.items && tb.items[m] == ta.items[m].(parent := keep);
    assert e in from && m in Kids(ta, e) && Placed(tb, m) && m != tb.root;
    assert m in Kids(tb, keep);
    assert OldestOf(t0, Having(t0, from, n, kind), e) && OldestOf(t0, Named(t0, e, n, kind), m);
  }

  // -------- Together

  lemma ChosenNext(t0: Tree, ta: Tree, tb: Tree, tc: Tree, d: Id, todo: set<string>, nm: string, keep: Id,
                   kept: set<Id>, inner: set<Id>)
    requires Turn(t0, ta, tb, tc, d, nm, keep) && nm in todo && KidsStay(tb, tc, keep)
    requires Chosen(t0, ta, d, todo, kept) && Chosen(tb, tc, keep, {}, inner)
    ensures Chosen(t0, tc, d, todo - {nm}, kept + Carried(t0, keep, inner))
  {
    var all := kept + Carried(t0, keep, inner);
    forall f | f in all ensures KeptAt(t0, tc, d, todo - {nm}, all, f) {
      if f in kept {
        OlderKept(t0, ta, tb, tc, d, todo, nm, keep, kept, inner, f);
      } else {
        InnerKept(t0, ta, tb, tc, d, todo, nm, keep, kept, inner, f);
      }
    }
    OneStill(t0, ta, tb, tc, d, todo, nm, keep, kept, inner);
    forall k | k in all && k in Kids(t0, d) ensures Gathers(t0, tc, Group(t0, d, t0.items[k].name), k) {
      ChosenGathers(t0, ta, tb, tc, d, todo, nm, keep, kept, inner, k);
    }
    SameTransitive(t0, ta, tb);
    SameTransitive(t0, tb, tc);
  }

  lemma ChosenGathers(t0: Tree, ta: Tree, tb: Tree, tc: Tree, d: Id, todo: set<string>, nm: string, keep: Id,
                      kept: set<Id>, inner: set<Id>, k: Id)
    requires Turn(t0, ta, tb, tc, d, nm, keep) && nm in todo && KidsStay(tb, tc, keep)
    requires Chosen(t0, ta, d, todo, kept) && k in kept + Carried(t0, keep, inner) && k in Kids(t0, d)
    ensures Gathers(t0, tc, Group(t0, d, t0.items[k].name), k)
  {
    ChildPath(t0, d, k);
    if k in kept {
      assert KeptAt(t0, ta, d, todo, kept, k) && FirstName(t0, d, k) == t0.items[k].name;
      OlderGathers(t0, ta, tb, tc, d, nm, keep, k);
    } else {
      InsideName(t0, d, nm, keep, k);
      KeepGathers(t0, ta, tb, tc, d, nm, keep);
    }
  }

  lemma KidsStayNext(t0: Tree, ta: Tree, tb: Tree, tc: Tree, d: Id, nm: string, keep: Id)
    requires Turn(t0, ta, tb, tc, d, nm, keep) && KidsStay(t0, ta, d)
    requires forall x :: x in Group(t0, d, nm) ==> tc.items[x].parent == d
    ensures KidsStay(t0, tc, d)
  {
    forall x | x in Kids(t0, d) && x !in Group(t0, d, nm) ensures tc.items[x] == ta.items[x] {
      ChildPath(t0, d, x);
    }
  }

  lemma KeepingNext(t0: Tree, ta: Tree, tb: Tree, tc: Tree, d: Id, todo: set<string>, nm: string, keep: Id)
    requires Turn(t0, ta, tb, tc, d, nm, keep) && nm in todo
    requires Keeping(t0, ta, d, todo) && Keeping(tb, tc, keep, {})
    requires forall x :: x in Group(t0, d, nm) ==> tc.items[x].parent == d
    ensures Keeping(t0, tc, d, todo - {nm})
  {
    OpenKeeping(t0, ta, d, todo);
    OpenKeeping(tb, tc, keep, {});
    var kept :| Chosen(t0, ta, d, todo, kept);
    var inner :| Chosen(tb, tc, keep, {}, inner);
    ChosenNext(t0, ta, tb, tc, d, todo, nm, keep, kept, inner);
    KidsStayNext(t0, ta, tb, tc, d, nm, keep);
    assert KeepingAt(t0, tc, d, todo - {nm});
  }
}
