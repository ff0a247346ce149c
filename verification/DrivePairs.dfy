/**
 What can be told before a whole run of scripts/drive-merge-dups.py about the files it loses: on a drive
 whose folders have at most one duplicate each, and nothing ambiguous inside a folder that has one.
 */
module DrivePairs {
  import opened DriveTree
  import opened DriveMerge
  import opened DriveReport
  import opened DriveLoss

  /** Two folders of one name in one folder, somewhere inside `d` with nothing trashed between. */
  ghost predicate Twin(t: Tree, d: Id, a: Id, b: Id)
    requires Valid(t)
  {
    && a in t.items && b in t.items && a != b && t.items[a].folder && t.items[b].folder
    && a != d && b != d && Under(t, d, a) && Under(t, d, b) && Siblings(t, a, b)
  }

  /** Inside `d` a folder has at most one namesake beside it, and then what is inside the two is tidy. */
  ghost predicate Paired(t: Tree, d: Id)
    requires Valid(t)
  {
    && (forall a, b, c :: Twin(t, d, a, b) && Twin(t, d, a, c) ==> b == c)
    && (forall a, b :: Twin(t, d, a, b) ==> Tidy(t, t.path[a]))
  }

  /** Some such pair loses a file when one is merged into the other. */
  ghost predicate TwinLoses(t: Tree, d: Id)
    requires Valid(t)
  {
    exists a, b :: Twin(t, d, a, b) && Loses(t, a, b)
  }

  /** Likewise, among the pairs below the names `names` of `d`. */
  ghost predicate TwinLosesIn(t: Tree, d: Id, names: set<string>)
    requires Valid(t)
  {
    exists a, b :: Twin(t, d, a, b) && Loses(t, a, b) && FirstName(t, d, a) in names
  }

  function FirstName(t: Tree, d: Id, x: Id): string
    requires t.path.Keys == t.items.Keys && x in t.items
  {
    if d in t.items && |t.path[d]| < |t.path[x]| then t.path[x][|t.path[d]|] else ""
  }

  /** The child folders of `folder` named `nm`. */
  ghost function Group(t: Tree, folder: Id, nm: string): set<Id>
    requires Valid(t)
  {
    set x | x in Kids(t, folder) && t.items[x].folder && t.items[x].name == nm
  }

  // -------- It does not matter which of the two is kept

  lemma ClashSymmetric(t: Tree, p: Path, k: Id, c: Id)
    requires Valid(t) && k in t.items && c in t.items && t.path[k] == t.path[c] && (t.path[k] == p || Below(p, t.path[k]))
    requires Tidy(t, p) && DirectClash(t, k, c)
    ensures DirectClash(t, c, k)
  {
    var f :| Clashes(t, FileNames(t, Kids(t, k)), Kids(t, c), f);
    ChildPath(t, c, f);
    if t.items[f].name in FileNames(t, Kids(t, c) - {f}) {
      var g :| g in Kids(t, c) - {f} && !t.items[g].folder && t.items[g].name == t.items[f].name;
      assert Siblings(t, f, g) && Below(p, t.path[f]);
    } else {
      var g :| g in Kids(t, k) && !t.items[g].folder && t.items[g].name == t.items[f].name;
      assert Clashes(t, FileNames(t, Kids(t, c)), Kids(t, k), g);
    }
  }

  lemma DroppingSymmetric(t: Tree, p: Path, k: Id, c: Id)
    requires Valid(t) && k in t.items && c in t.items && t.path[k] == t.path[c] && (t.path[k] == p || Below(p, t.path[k]))
    requires Tidy(t, p) && Dropping(t, k, c)
    ensures Dropping(t, c, k)
  {
    var k', c' :| Matched(t, k, c, k', c') && DirectClash(t, k', c');
    ChildPath(t, k, k');
    ChildPath(t, c, c');
    ClashSymmetric(t, p, k', c');
    if DirectClash(t, c, k) {
      ClashSymmetric(t, p, c, k);
    }
    assert Matched(t, c, k, c', k');
  }

  lemma LosesSymmetric(t: Tree, a: Id, b: Id)
    requires Valid(t) && a in t.items && b in t.items && t.path[a] == t.path[b] && Tidy(t, t.path[a]) && Loses(t, a, b)
    ensures Loses(t, b, a)
  {
    var k, c :| Pair(t, a, b, k, c) && Dropping(t, k, c);
    UnderIsBelow(t, a, k);
    DroppingSymmetric(t, t.path[a], k, c);
    assert Pair(t, b, a, c, k);
  }

  // -------- The pairs of one name

  lemma TwinPath(t: Tree, d: Id, a: Id, b: Id)
    requires Valid(t) && d in t.items && Twin(t, d, a, b)
    ensures t.path[a] == t.path[b] && Below(t.path[d], t.path[a])
  {
    assert Placed(t, a) && Placed(t, b);
    UnderIsBelow(t, d, a);
  }

  lemma TwinInChild(t: Tree, d: Id, a: Id, b: Id, g: Id)
    requires Valid(t) && d in t.items && Twin(t, d, a, b) && g in Kids(t, d) && Under(t, g, a)
    ensures a == g ==> b in Kids(t, d)
    ensures a != g ==> Twin(t, g, a, b)
  {
    TwinPath(t, d, a, b);
    ChildPath(t, d, g);
    assert Placed(t, a) && Placed(t, b);
    if a != g {
      UnderIsBelow(t, g, a);
    }
  }

  lemma TwinOfChild(t: Tree, d: Id, g: Id, a: Id, b: Id)
    requires Valid(t) && d in t.items && g in Kids(t, d) && Twin(t, g, a, b)
    ensures Twin(t, d, a, b) && FirstName(t, d, a) == t.items[g].name
  {
    assert Under(t, d, d) && Under(t, d, g);
    UnderTransitive(t, d, g, a);
    UnderTransitive(t, d, g, b);
    ChildPath(t, d, g);
    TwinPath(t, g, a, b);
    NameOnTheWay(t.path[d], t.items[g].name, t.path[a]);
  }

  lemma TwinOfGroup(t: Tree, d: Id, nm: string, a: Id, b: Id)
    requires Valid(t) && d in t.items && a in Group(t, d, nm) && b in Group(t, d, nm) && a != b
    ensures Twin(t, d, a, b) && FirstName(t, d, a) == nm
  {
    assert Under(t, d, d) && Under(t, d, a) && Under(t, d, b);
    ChildPath(t, d, a);
  }

  /** A pair below `nm` is in the group of that name, or inside one of its folders. */
  lemma TwinAtName(t: Tree, d: Id, nm: string, a: Id, b: Id) returns (g: Id)
    requires Valid(t) && d in t.items && Twin(t, d, a, b) && FirstName(t, d, a) == nm
    ensures g in Group(t, d, nm)
    ensures Twin(t, g, a, b) || (a == g && b in Group(t, d, nm))
  {
    TwinPath(t, d, a, b);
    g := TopChild(t, d, a);
    TwinInChild(t, d, a, b, g);
  }

  lemma OneMoreName(t: Tree, d: Id, names: set<string>, nm: string)
    requires Valid(t)
    ensures TwinLosesIn(t, d, names + {nm}) <==> TwinLosesIn(t, d, names) || TwinLosesIn(t, d, {nm})
  {
  }

  lemma AllNames(t: Tree, d: Id)
    requires Valid(t) && d in t.items
    ensures TwinLosesIn(t, d, FolderNames(t, Kids(t, d))) <==> TwinLoses(t, d)
  {
    forall a, b | Twin(t, d, a, b) ensures FirstName(t, d, a) in FolderNames(t, Kids(t, d)) {
      var g := TwinAtName(t, d, FirstName(t, d, a), a, b);
    }
  }

  /** A folder without a namesake: the pairs below its name are those inside it. */
  lemma LoneGroup(t: Tree, d: Id, nm: string, keep: Id)
    requires Valid(t) && d in t.items && Group(t, d, nm) == {keep}
    ensures TwinLosesIn(t, d, {nm}) <==> TwinLoses(t, keep)
    ensures Paired(t, d) ==> Paired(t, keep)
  {
    assert keep in Group(t, d, nm);
    if TwinLosesIn(t, d, {nm}) {
      var a, b :| Twin(t, d, a, b) && Loses(t, a, b) && FirstName(t, d, a) in {nm};
      var g := TwinAtName(t, d, nm, a, b);
    }
    forall a, b | Twin(t, keep, a, b) ensures Twin(t, d, a, b) && FirstName(t, d, a) == nm {
      TwinOfChild(t, d, keep, a, b);
    }
  }

  /** A folder with one: that pair is all there is. */
  lemma PairGroup(t: Tree, d: Id, nm: string, keep: Id, dup: Id)
    requires Valid(t) && d in t.items && Group(t, d, nm) == {keep, dup} && keep != dup && Paired(t, d)
    ensures t.path[keep] == t.path[dup] && Tidy(t, t.path[keep])
    ensures TwinLosesIn(t, d, {nm}) <==> Loses(t, keep, dup)
  {
    TwinOfGroup(t, d, nm, keep, dup);
    TwinOfGroup(t, d, nm, dup, keep);
    TwinPath(t, d, keep, dup);
    if TwinLosesIn(t, d, {nm}) {
      var a, b :| Twin(t, d, a, b) && Loses(t, a, b) && FirstName(t, d, a) in {nm};
      var g := TwinAtName(t, d, nm, a, b);
      if Twin(t, g, a, b) {
        TidyHasNoTwins(t, g, a, b);
      } else if a == dup {
        LosesSymmetric(t, dup, keep);
      }
    }
  }

  lemma TidyHasNoTwins(t: Tree, d: Id, a: Id, b: Id)
    requires Valid(t) && d in t.items && Tidy(t, t.path[d])
    ensures !Twin(t, d, a, b)
  {
    if Twin(t, d, a, b) {
      TwinPath(t, d, a, b);
    }
  }

  /** The group has no more members than these two. */
  lemma GroupIsPair(t: Tree, d: Id, nm: string, keep: Id, dup: Id)
    requires Valid(t) && d in t.items && Paired(t, d) && keep in Group(t, d, nm) && dup in Group(t, d, nm) && keep != dup
    ensures Group(t, d, nm) == {keep, dup}
  {
    forall x | x in Group(t, d, nm) && x != keep ensures x == dup {
      TwinOfGroup(t, d, nm, keep, x);
      TwinOfGroup(t, d, nm, keep, dup);
    }
  }

  // -------- What is the same inside a folder has the same pairs

  /** Alike below `p`, and the folder `g` of that path itself as well. */
  lemma TwinAlike(t: Tree, t': Tree, g: Id, a: Id, b: Id)
    requires Valid(t) && Valid(t') && g in t.items && Alike(t, t', t.path[g]) && Twin(t, g, a, b)
    ensures Twin(t', g, a, b)
  {
    TwinPath(t, g, a, b);
    UnderAlike(t, t', t.path[g], g, a);
    UnderAlike(t, t', t.path[g], g, b);
  }

  lemma LosesTwinAlike(t: Tree, t': Tree, g: Id, a: Id, b: Id)
    requires Valid(t) && Valid(t') && g in t.items && Alike(t, t', t.path[g]) && Twin(t, g, a, b) && Loses(t, a, b)
    ensures Twin(t', g, a, b) && Loses(t', a, b)
  {
    TwinPath(t, g, a, b);
    TwinAlike(t, t', g, a, b);
    assert Alike(t, t', t.path[b]) by { AlikeBelow(t, t', t.path[g], t.path[b]); }
    LosesAlike(t, t', a, b);
  }

  lemma AlikeBelow(t: Tree, t': Tree, p: Path, q: Path)
    requires Alike(t, t', p) && Below(p, q)
    ensures Alike(t, t', q)
  {
    forall x | x in t.items && Below(q, t.path[x]) ensures t'.items[x] == t.items[x] {
      BelowTransitive(p, q, t.path[x]);
    }
  }

  lemma AlikeBack(t: Tree, t': Tree, p: Path)
    requires Alike(t, t', p)
    ensures Alike(t', t, p)
  {
  }

  lemma TidyAlike(t: Tree, t': Tree, p: Path)
    requires Valid(t) && Valid(t') && Alike(t, t', p) && Tidy(t, p)
    ensures Tidy(t', p)
  {
    forall x, y | x in t'.items && y in t'.items && Siblings(t', x, y) && Below(p, t'.path[x])
      ensures x == y
    {
      assert Placed(t', x) && Placed(t', y);
      assert t.path[x] == t.path[y];
      assert Siblings(t, x, y);
    }
  }

  lemma InsideAlike(t: Tree, t': Tree, g: Id)
    requires Valid(t) && Valid(t') && g in t.items && Alike(t, t', t.path[g])
    ensures TwinLoses(t', g) <==> TwinLoses(t, g)
    ensures Paired(t, g) ==> Paired(t', g)
  {
    AlikeBack(t, t', t.path[g]);
    if TwinLoses(t, g) {
      var a, b :| Twin(t, g, a, b) && Loses(t, a, b);
      LosesTwinAlike(t, t', g, a, b);
    }
    if TwinLoses(t', g) {
      var a, b :| Twin(t', g, a, b) && Loses(t', a, b);
      LosesTwinAlike(t', t, g, a, b);
    }
    if Paired(t, g) {
      PairedAlike(t, t', g);
    }
  }

  lemma PairedAlike(t: Tree, t': Tree, g: Id)
    requires Valid(t) && Valid(t') && g in t.items && Alike(t, t', t.path[g]) && Alike(t', t, t.path[g]) && Paired(t, g)
    ensures Paired(t', g)
  {
    forall a, b | Twin(t', g, a, b) ensures Twin(t, g, a, b) && Tidy(t', t'.path[a]) {
      TwinAlike(t', t, g, a, b);
      TwinPath(t, g, a, b);
      AlikeBelow(t, t', t.path[g], t.path[a]);
      TidyAlike(t, t', t.path[a]);
    }
  }

  // -------- A merge makes no pairs inside the folder it keeps

  lemma MergedHasNoTwins(t: Tree, t': Tree, keep: Id)
    requires Valid(t) && Valid(t') && SameItems(t, t') && NoNewTwins(t, t') && keep in t.items && Tidy(t, t.path[keep])
    ensures Paired(t', keep) && !TwinLoses(t', keep)
  {
    forall a, b ensures !Twin(t', keep, a, b) {
      if Twin(t', keep, a, b) {
        TwinPath(t', keep, a, b);
        assert Siblings(t, a, b);
      }
    }
  }

  // -------- The same, as walk calls upon it

  /** A walk of `d`, for the script as written: it drops something exactly if some pair loses a file. */
  ghost predicate Foreseen(t: Tree, d: Id, counts: bool, dropped: bool)
  {
    && Valid(t) && d in t.items
    && (Paired(t, d) && !counts ==> (dropped <==> TwinLoses(t, d)))
  }

  /** The loop over one group, from `t0` to `t`: a folder alone is left alone, a pair is merged once. */
  ghost predicate GroupLoss(t0: Tree, t: Tree, group: set<Id>, keep: Id, pending: set<Id>, counts: bool, dropped: bool)
  {
    && Valid(t0) && keep in t0.items
    && (pending == group - {keep} ==> t == t0 && !dropped)
    && (forall d :: (d in t0.items && d != keep && group == {keep, d} && pending == {} && !counts
                     && t0.path[d] == t0.path[keep] && Tidy(t0, t0.path[d])) ==> (dropped <==> Loses(t0, keep, d)))
  }

  /** The loop over the names: `todo` are those still to come. */
  ghost predicate NamesLoss(t: Tree, d: Id, todo: set<string>, counts: bool, dropped: bool)
  {
    && Valid(t) && d in t.items
    && (Paired(t, d) && !counts ==> (dropped <==> TwinLosesIn(t, d, FolderNames(t, Kids(t, d)) - todo)))
  }

  lemma GroupLossMerged(t0: Tree, t: Tree, t1: Tree, group: set<Id>, keep: Id, pending: set<Id>, dup: Id, counts: bool,
                        dropped: bool, more: bool)
    requires GroupLoss(t0, t, group, keep, pending, counts, dropped) && LossDone(t, keep, dup, counts, more)
    requires dup in pending && pending <= group && keep !in pending
    ensures GroupLoss(t0, t1, group, keep, pending - {dup}, counts, dropped || more)
  {
    assert dup in group - {keep} && dup !in pending - {dup};
    forall d | d in t0.items && d != keep && group == {keep, d} && pending - {dup} == {} && !counts
               && t0.path[d] == t0.path[keep] && Tidy(t0, t0.path[d])
      ensures dropped || more <==> Loses(t0, keep, d)
    {
      assert dup == d && pending == group - {keep};
    }
  }

  lemma NamesStart(t: Tree, d: Id, counts: bool)
    requires Valid(t) && d in t.items
    ensures NamesLoss(t, d, FolderNames(t, Kids(t, d)), counts, false)
  {
  }

  lemma NamesEnd(t: Tree, d: Id, counts: bool, dropped: bool)
    requires NamesLoss(t, d, {}, counts, dropped)
    ensures Foreseen(t, d, counts, dropped)
  {
    AllNames(t, d);
    assert FolderNames(t, Kids(t, d)) - {} == FolderNames(t, Kids(t, d));
  }

  /** One name: its group is merged (`ta` to `tb`), and the kept folder walked. */
  lemma NamesNext(t0: Tree, ta: Tree, tb: Tree, d: Id, todo: set<string>, nm: string, keep: Id, counts: bool,
                  r: bool, q: bool, w: bool)
    requires NamesLoss(t0, d, todo, counts, r) && nm in todo && todo <= FolderNames(t0, Kids(t0, d))
    requires keep in Group(t0, d, nm) && Valid(ta) && Valid(tb) && Alike(t0, ta, t0.path[d] + [nm])
    requires SameItems(ta, tb) && NoNewTwins(ta, tb)
    requires GroupLoss(ta, tb, Group(t0, d, nm), keep, {}, counts, q) && Foreseen(tb, keep, counts, w)
    ensures NamesLoss(t0, d, todo - {nm}, counts, r || q || w)
  {
    var names := FolderNames(t0, Kids(t0, d));
    assert names - (todo - {nm}) == names - todo + {nm};
    OneMoreName(t0, d, names - todo, nm);
    ChildPath(t0, d, keep);
    if Paired(t0, d) && !counts {
      if Group(t0, d, nm) == {keep} {
        LoneNext(t0, ta, tb, d, nm, keep, q, w);
      } else {
        PairNext(t0, ta, tb, d, nm, keep, q, w);
      }
    }
  }

  lemma LoneNext(t0: Tree, ta: Tree, tb: Tree, d: Id, nm: string, keep: Id, q: bool, w: bool)
    requires Valid(t0) && d in t0.items && Paired(t0, d) && Group(t0, d, nm) == {keep} && keep in t0.items
    requires Valid(ta) && Alike(t0, ta, t0.path[keep])
    requires GroupLoss(ta, tb, {keep}, keep, {}, false, q) && Foreseen(tb, keep, false, w)
    ensures q || w <==> TwinLosesIn(t0, d, {nm})
  {
    assert {keep} - {keep} == {};
    LoneGroup(t0, d, nm, keep);
    InsideAlike(t0, ta, keep);
  }

  lemma PairNext(t0: Tree, ta: Tree, tb: Tree, d: Id, nm: string, keep: Id, q: bool, w: bool)
    requires Valid(t0) && d in t0.items && Paired(t0, d) && keep in Group(t0, d, nm) && Group(t0, d, nm) != {keep}
    requires Valid(ta) && Valid(tb) && Alike(t0, ta, t0.path[keep]) && SameItems(ta, tb) && NoNewTwins(ta, tb)
    requires GroupLoss(ta, tb, Group(t0, d, nm), keep, {}, false, q) && Foreseen(tb, keep, false, w)
    ensures q || w <==> TwinLosesIn(t0, d, {nm})
  {
    var dup :| dup in Group(t0, d, nm) && dup != keep;
    GroupIsPair(t0, d, nm, keep, dup);
    PairGroup(t0, d, nm, keep, dup);
    TidyAlike(t0, ta, t0.path[keep]);
    AlikeBack(t0, ta, t0.path[keep]);
    SameVerdict(t0, ta, keep, dup);
    MergedHasNoTwins(ta, tb, keep);
  }
}
