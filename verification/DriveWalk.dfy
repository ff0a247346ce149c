/**
 The outer recursion of scripts/drive-merge-dups.py: `walk` groups the child folders by name, merges
 every group into its oldest folder and walks that folder in turn.
 */
module DriveWalk {
  import opened DriveTree
  import opened DriveMerge
  import opened DriveReport
  import opened DriveLoss
  import opened DrivePairs
  import opened DriveCall
  import opened DriveOrder
  import opened DriveGroup
  import opened DriveKept

  // -------- What one walk call does

  ghost predicate OnlyFolder(t: Tree, folder: Id)
    requires Valid(t) && folder in t.items
  {
    forall y :: LiveFolder(t, y) && t.path[y] == t.path[folder] ==> y == folder
  }

  ghost predicate WalkStep(t: Tree, t': Tree, p: Path)
    requires Valid(t)
  {
    && Valid(t') && SameItems(t, t') && NoNewTwins(t, t') && NothingRevived(t, t')
    && (forall x :: x in t.items && !Below(p, t.path[x]) ==> t'.items[x] == t.items[x])
    && LivePaths(t, {}) <= LivePaths(t', {})
  }

  /** Below the only folder of its path, a walk that meets no conflict leaves no two folders of one path. */
  ghost predicate WalkPost(t: Tree, t': Tree, folder: Id, counts: bool, r: Report)
  {
    && Valid(t) && folder in t.items
    && WalkStep(t, t', t.path[folder]) && Ran(t, t', r) && Fair(counts, r)
    && (OnlyFolder(t, folder) && !r.conflict ==> UniqueFolders(t', t.path[folder]))
    && Foreseen(t, folder, counts, r.dropped)
    && Keeping(t, t', folder, {})
  }

  ghost predicate Walks(t: Tree, t': Tree, folder: Id, counts: bool, r: Report)
  {
    forall x {:trigger WalkPost(t, x, folder, counts, r)} :: x == t' ==> WalkPost(t, x, folder, counts, r)
  }

  lemma OpenWalks(t: Tree, t': Tree, folder: Id, counts: bool, r: Report)
    requires Walks(t, t', folder, counts, r)
    ensures WalkPost(t, t', folder, counts, r)
  {
  }

  lemma WalkStepTransitive(t0: Tree, t1: Tree, t2: Tree, p: Path, q: Path)
    requires Valid(t0) && WalkStep(t0, t1, p) && WalkStep(t1, t2, q) && (q == p || Below(p, q))
    ensures WalkStep(t0, t2, p)
  {
    TwinsTransitive(t0, t1, t2);
    forall x | x in t0.items && !Below(p, t0.path[x])
      ensures !Below(q, t0.path[x])
    {
      if Below(q, t0.path[x]) && q != p {
        BelowTransitive(p, q, t0.path[x]);
      }
    }
  }

  lemma MergeIsWalkStep(t: Tree, t': Tree, keep: Id, dup: Id, p: Path)
    requires Valid(t) && dup in t.items && MergeStep(t, t', keep, dup, {}) && Below(p, t.path[dup])
    ensures WalkStep(t, t', p)
  {
    forall x | x in t.items && !Below(p, t.path[x])
      ensures !Below(t.path[dup], t.path[x])
    {
      if Below(t.path[dup], t.path[x]) {
        BelowTransitive(p, t.path[dup], t.path[x]);
      }
    }
    forall q | q in LivePaths(t', {} + {dup})
      ensures q in LivePaths(t', {})
    {
      var x :| x in t'.items && LiveFile(t', {} + {dup}, x) && t'.path[x] == q;
      LiveShrinksWithCut(t', {}, {} + {dup}, x);
      assert LiveFile(t', {}, x);
    }
  }

  // The loop over one group of same-name folders

  /** What changes outside the group, and in it: nothing that is still to be merged. */
  ghost predicate GroupFrame(t0: Tree, t: Tree, folder: Id, group: set<Id>, nm: string, keep: Id, pending: set<Id>)
    requires Valid(t0) && folder in t0.items && t.items.Keys == t0.items.Keys
  {
    && keep in group && keep !in pending && pending <= group
    && (forall x :: x in t0.items && x !in group && !Below(t0.path[folder] + [nm], t0.path[x])
                    ==> t.items[x] == t0.items[x])
    && (forall x :: x in group ==> Child(t0, folder, x) && t0.items[x].folder && t0.items[x].name == nm
                                   && t.items[x].parent == folder)
    && (forall x :: x in group && (x == keep || x in pending) ==> t.items[x] == t0.items[x])
  }

  /**
   `group` are the child folders of `folder` named `nm`; those in `pending` are still to be merged. Unless
   a conflict was met, the others are in the trash.
   */
  ghost predicate GroupInv(t0: Tree, t: Tree, folder: Id, group: set<Id>, nm: string, keep: Id, pending: set<Id>,
                           conflict: bool)
    requires Valid(t0) && folder in t0.items && t.items.Keys == t0.items.Keys
  {
    && GroupFrame(t0, t, folder, group, nm, keep, pending)
    && (!conflict ==> forall x :: x in group && x != keep && x !in pending ==> t.items[x].trashed)
  }

  lemma {:induction false} SurvivesWalkStep(t: Tree, t': Tree, p: Path, x: Id)
    requires Valid(t) && WalkStep(t, t', p) && x in t.items && !Below(p, t.path[x])
    ensures Live(t', {}, x) == Live(t, {}, x)
    decreases |t.path[x]|
  {
    assert Placed(t, x) && Placed(t', x);
    if x != t.root {
      assert !Below(p, t.path[t.items[x].parent]);
      SurvivesWalkStep(t, t', p, t.items[x].parent);
    }
  }

  lemma GroupMergePre(t0: Tree, t: Tree, folder: Id, group: set<Id>, nm: string, keep: Id, pending: set<Id>, dup: Id)
    requires Valid(t0) && folder in t0.items && Live(t0, {}, folder) && WalkStep(t0, t, t0.path[folder])
    requires GroupFrame(t0, t, folder, group, nm, keep, pending) && dup in pending
    ensures MergePre(t, keep, dup, {}) && Live(t, {}, folder)
    ensures t.path[dup] == t.path[folder] + [nm]
  {
    assert Child(t0, folder, keep) && Child(t0, folder, dup) && Placed(t, keep) && Placed(t, dup);
    SurvivesWalkStep(t0, t, t0.path[folder], folder);
  }

  lemma GroupMergedFrame(t0: Tree, t: Tree, t1: Tree, folder: Id, group: set<Id>, nm: string, keep: Id,
                         pending: set<Id>, dup: Id)
    requires Valid(t0) && folder in t0.items && Valid(t) && SameItems(t0, t)
    requires GroupFrame(t0, t, folder, group, nm, keep, pending) && dup in pending
    requires Step(t, t1, dup) && t.path[dup] == t.path[folder] + [nm]
    ensures GroupFrame(t0, t1, folder, group, nm, keep, pending - {dup})
  {
    forall x | x in group
      ensures t.path[x] == t.path[dup]
    {
      ChildPath(t0, folder, x);
    }
  }

  lemma GroupMergedTrash(t0: Tree, t: Tree, t1: Tree, folder: Id, group: set<Id>, nm: string, keep: Id,
                         pending: set<Id>, dup: Id, was: bool, conflict: bool)
    requires Valid(t0) && folder in t0.items && SameItems(t0, t) && SameItems(t, t1)
    requires GroupInv(t0, t, folder, group, nm, keep, pending, was) && dup in pending
    requires GroupFrame(t0, t1, folder, group, nm, keep, pending - {dup})
    requires !conflict ==> !was && t1.items[dup].trashed
    ensures GroupInv(t0, t1, folder, group, nm, keep, pending - {dup}, conflict)
  {
  }

  /** The state of the loop over one group, folded. */
  ghost predicate Grouping(t0: Tree, t: Tree, folder: Id, group: set<Id>, nm: string, keep: Id, pending: set<Id>,
                           counts: bool, r: Report)
  {
    forall x {:trigger GroupingAt(t0, x, folder, group, nm, keep, pending, counts, r)} :: x == t ==>
      GroupingAt(t0, x, folder, group, nm, keep, pending, counts, r)
  }

  ghost predicate GroupingAt(t0: Tree, t: Tree, folder: Id, group: set<Id>, nm: string, keep: Id, pending: set<Id>,
                             counts: bool, r: Report)
  {
    && Valid(t0) && folder in t0.items && Live(t0, {}, folder)
    && WalkStep(t0, t, t0.path[folder]) && GroupInv(t0, t, folder, group, nm, keep, pending, r.conflict)
    && Ran(t0, t, r) && Fair(counts, r) && GroupLoss(t0, t, group, keep, pending, counts, r.dropped)
    && GroupOk(t0, t, group, keep, pending)
  }

  lemma OpenGrouping(t0: Tree, t: Tree, folder: Id, group: set<Id>, nm: string, keep: Id, pending: set<Id>,
                     counts: bool, r: Report)
    requires Grouping(t0, t, folder, group, nm, keep, pending, counts, r)
    ensures GroupingAt(t0, t, folder, group, nm, keep, pending, counts, r)
  {
  }

  lemma GroupReady(t0: Tree, t: Tree, folder: Id, group: set<Id>, nm: string, keep: Id, pending: set<Id>,
                   counts: bool, r: Report)
    requires Grouping(t0, t, folder, group, nm, keep, pending, counts, r)
    ensures pending <= t.items.Keys && keep in t.path && folder in t0.path && t.path == t0.path
    ensures |t.path[keep]| == |t.path[folder]| + 1
    ensures forall dup :: dup in pending ==> Ready(t, keep, dup, {})
  {
    OpenGrouping(t0, t, folder, group, nm, keep, pending, counts, r);
    assert Child(t0, folder, keep);
    forall dup | dup in pending ensures MergePre(t, keep, dup, {}) {
      GroupMergePre(t0, t, folder, group, nm, keep, pending, dup);
    }
  }

  lemma GroupValid(t0: Tree, t: Tree, folder: Id, group: set<Id>, nm: string, keep: Id, pending: set<Id>,
                   counts: bool, r: Report)
    requires Grouping(t0, t, folder, group, nm, keep, pending, counts, r)
    ensures Valid(t)
  {
    OpenGrouping(t0, t, folder, group, nm, keep, pending, counts, r);
  }

  lemma GroupMerged(t0: Tree, t: Tree, t1: Tree, folder: Id, group: set<Id>, nm: string, keep: Id,
                    pending: set<Id>, dup: Id, counts: bool, r: Report, stays: bool, q: Report)
    requires Grouping(t0, t, folder, group, nm, keep, pending, counts, r) && dup in pending
    requires forall q :: q in pending && q in t.items && dup in t.items ==> t.items[dup].created <= t.items[q].created
    requires Merges(t, t1, keep, dup, {}, counts, stays, q)
    ensures Grouping(t0, t1, folder, group, nm, keep, pending - {dup}, counts, And(r, q))
  {
    OpenGrouping(t0, t, folder, group, nm, keep, pending, counts, r);
    OpenMerges(t, t1, keep, dup, {}, counts, stays, q);
    RanInTurn(t0, t, t1, r, q);
    GroupMergedStep(t0, t, t1, folder, group, nm, keep, pending, dup);
    GroupMergedTrash(t0, t, t1, folder, group, nm, keep, pending, dup, r.conflict, r.conflict || q.conflict);
    GroupStep(t0, t, t1, group, keep, pending, dup);
    GroupLossMerged(t0, t, t1, group, keep, pending, dup, counts, r.dropped, q.dropped);
  }

  lemma GroupMergedStep(t0: Tree, t: Tree, t1: Tree, folder: Id, group: set<Id>, nm: string, keep: Id,
                        pending: set<Id>, dup: Id)
    requires Valid(t0) && folder in t0.items && Live(t0, {}, folder) && WalkStep(t0, t, t0.path[folder])
    requires GroupFrame(t0, t, folder, group, nm, keep, pending) && dup in pending && dup in t.items
    requires MergeStep(t, t1, keep, dup, {})
    ensures WalkStep(t0, t1, t0.path[folder]) && SameItems(t, t1)
    ensures GroupFrame(t0, t1, folder, group, nm, keep, pending - {dup})
  {
    GroupMergePre(t0, t, folder, group, nm, keep, pending, dup);
    MergeIsWalkStep(t, t1, keep, dup, t0.path[folder]);
    WalkStepTransitive(t0, t, t1, t0.path[folder], t0.path[folder]);
    GroupMergedFrame(t0, t, t1, folder, group, nm, keep, pending, dup);
  }

  // The loop over all groups

  /** Below a name still to do nothing has changed. */
  ghost predicate Untouched(t0: Tree, t: Tree, p: Path, todo: set<string>)
    requires t.items.Keys == t0.items.Keys == t0.path.Keys
  {
    forall x :: x in t0.items && Below(p, t0.path[x]) && t0.path[x][|p|] in todo ==> t.items[x] == t0.items[x]
  }

  /** Below a name already done live folders are unique. */
  ghost predicate UniqueUnder(t: Tree, p: Path, done: set<string>)
    requires Valid(t)
  {
    forall x, y ::
      (LiveFolder(t, x) && LiveFolder(t, y) && t.path[x] == t.path[y] && Below(p, t.path[x]) && t.path[x][|p|] in done)
      ==> x == y
  }

  lemma NextName(p: Path, nm: string, q: Path)
    ensures Below(p + [nm], q) ==> Below(p, q) && q[|p|] == nm
    ensures Below(p, q) && q[|p|] == nm ==> q == p + [nm] || Below(p + [nm], q)
  {
    if Below(p + [nm], q) {
      assert q[|p|] == q[..|p + [nm]|][|p|];
      BelowTransitive(p, p + [nm], q);
    }
    if Below(p, q) && q[|p|] == nm {
      assert q[..|p| + 1] == p + [nm];
    }
  }

  /** The live items one name below the only live folder with its path are its children. */
  lemma DirectChild(t: Tree, folder: Id, x: Id)
    requires Valid(t) && folder in t.items && OnlyFolder(t, folder) && x in t.items && Live(t, {}, x)
    requires |t.path[x]| == |t.path[folder]| + 1 && t.path[x][..|t.path[folder]|] == t.path[folder]
    ensures Child(t, folder, x) && t.path[x][|t.path[folder]|] == t.items[x].name
  {
    assert Placed(t, x);
    var up := t.items[x].parent;
    assert t.path[up] == t.path[folder];
    assert LiveFolder(t, up);
  }

  /** Once its namesakes are merged, `keep` is the only live folder with its path. */
  lemma KeepIsOnly(t0: Tree, tb: Tree, folder: Id, nm: string, keep: Id)
    requires Valid(t0) && folder in t0.items && OnlyFolder(t0, folder)
    requires Valid(tb) && SameItems(t0, tb) && NothingRevived(t0, tb)
    requires keep in tb.items && tb.path[keep] == t0.path[folder] + [nm]
    requires forall x :: x in Group(t0, folder, nm) && x != keep ==> tb.items[x].trashed
    ensures OnlyFolder(tb, keep)
  {
    forall y | LiveFolder(tb, y) && tb.path[y] == tb.path[keep]
      ensures y == keep
    {
      DirectChild(t0, folder, y);
      assert y in Group(t0, folder, nm);
      assert Placed(tb, y);
    }
  }

  lemma GroupDoneSteps(t0: Tree, ta: Tree, tb: Tree, tc: Tree, folder: Id, todo: set<string>, nm: string, keep: Id)
    requires Valid(t0) && folder in t0.items && nm in todo
    requires WalkStep(t0, ta, t0.path[folder]) && Untouched(t0, ta, t0.path[folder], todo)
    requires WalkStep(ta, tb, t0.path[folder]) && GroupFrame(ta, tb, folder, Group(t0, folder, nm), nm, keep, {})
    requires WalkStep(tb, tc, tb.path[keep]) && tb.path[keep] == t0.path[folder] + [nm]
    ensures WalkStep(t0, tc, t0.path[folder]) && Untouched(t0, tc, t0.path[folder], todo - {nm})
    ensures WalkStep(ta, tc, t0.path[folder])
  {
    var p := t0.path[folder];
    WalkStepTransitive(ta, tb, tc, p, tb.path[keep]);
    WalkStepTransitive(t0, ta, tc, p, p);
    forall x | x in t0.items && Below(p, t0.path[x]) && t0.path[x][|p|] in todo - {nm}
      ensures tc.items[x] == t0.items[x]
    {
      NextName(p, nm, t0.path[x]);
      if x in Group(t0, folder, nm) {
        ChildPath(t0, folder, x);
      }
    }
  }

  lemma UniqueStays(t: Tree, t': Tree, p: Path, done: set<string>)
    requires Valid(t) && Valid(t') && SameItems(t, t') && NothingRevived(t, t') && UniqueUnder(t, p, done)
    ensures UniqueUnder(t', p, done)
  {
    assert forall x :: LiveFolder(t', x) ==> LiveFolder(t, x);
  }

  lemma GroupDoneUnique(tb: Tree, tc: Tree, p: Path, done: set<string>, nm: string, keep: Id)
    requires Valid(tb) && Valid(tc) && SameItems(tb, tc) && NothingRevived(tb, tc)
    requires keep in tb.items && tb.path[keep] == p + [nm] && OnlyFolder(tb, keep)
    requires UniqueUnder(tc, p, done) && UniqueFolders(tc, p + [nm])
    ensures UniqueUnder(tc, p, done + {nm})
  {
    forall x, y | LiveFolder(tc, x) && LiveFolder(tc, y) && tc.path[x] == tc.path[y]
                  && Below(p, tc.path[x]) && tc.path[x][|p|] in done + {nm}
      ensures x == y
    {
      if tc.path[x][|p|] !in done {
        NextName(p, nm, tc.path[x]);
        assert LiveFolder(tb, x) && LiveFolder(tb, y);
      }
    }
  }

  /** The state of the loop over the names; `todo` are those still to come. */
  ghost predicate WalkInv(t0: Tree, t: Tree, folder: Id, todo: set<string>, counts: bool, r: Report)
  {
    && Valid(t0) && folder in t0.items && Live(t0, {}, folder) && todo <= FolderNames(t0, Kids(t0, folder))
    && WalkStep(t0, t, t0.path[folder]) && Untouched(t0, t, t0.path[folder], todo)
    && Ran(t0, t, r) && Fair(counts, r)
    && (OnlyFolder(t0, folder) && !r.conflict ==>
          UniqueUnder(t, t0.path[folder], FolderNames(t0, Kids(t0, folder)) - todo))
    && NamesLoss(t0, folder, todo, counts, r.dropped)
    && Keeping(t0, t, folder, todo)
  }

  ghost predicate Walking(t0: Tree, t: Tree, folder: Id, todo: set<string>, counts: bool, r: Report)
  {
    forall x {:trigger WalkInv(t0, x, folder, todo, counts, r)} :: x == t ==> WalkInv(t0, x, folder, todo, counts, r)
  }

  lemma OpenWalking(t0: Tree, t: Tree, folder: Id, todo: set<string>, counts: bool, r: Report)
    requires Walking(t0, t, folder, todo, counts, r)
    ensures WalkInv(t0, t, folder, todo, counts, r)
  {
  }

  /** The whole group is done: its namesakes merged and the kept folder walked. */
  lemma GroupDone(t0: Tree, ta: Tree, tb: Tree, tc: Tree, folder: Id, todo: set<string>, nm: string, keep: Id,
                  counts: bool, r: Report, q: Report, w: Report)
    requires Walking(t0, ta, folder, todo, counts, r) && nm in todo && Valid(t0)
    requires Grouping(ta, tb, folder, Group(t0, folder, nm), nm, keep, {}, counts, q)
    requires Walks(tb, tc, keep, counts, w)
    ensures Walking(t0, tc, folder, todo - {nm}, counts, And(And(r, q), w))
  {
    OpenWalking(t0, ta, folder, todo, counts, r);
    OpenGrouping(ta, tb, folder, Group(t0, folder, nm), nm, keep, {}, counts, q);
    OpenWalks(tb, tc, keep, counts, w);
    assert Ran(t0, tc, And(And(r, q), w)) by {
      RanInTurn(t0, ta, tb, r, q);
      RanInTurn(t0, tb, tc, And(r, q), w);
    }
    ChildPath(ta, folder, keep);
    GroupDoneSteps(t0, ta, tb, tc, folder, todo, nm, keep);
    GroupDoneLoss(t0, ta, tb, folder, todo, nm, keep, counts, r.dropped, q.dropped, w.dropped);
    GroupDoneKept(t0, ta, tb, tc, folder, todo, nm, keep);
    if OnlyFolder(t0, folder) && !r.conflict && !q.conflict && !w.conflict {
      GroupDoneNames(t0, ta, tb, tc, folder, todo, nm, keep);
    }
  }

  lemma GroupDoneNames(t0: Tree, ta: Tree, tb: Tree, tc: Tree, folder: Id, todo: set<string>, nm: string, keep: Id)
    requires Valid(t0) && folder in t0.items && WalkStep(t0, ta, t0.path[folder]) && WalkStep(ta, tb, t0.path[folder])
    requires keep in tb.items && WalkStep(tb, tc, tb.path[keep])
    requires tb.path[keep] == t0.path[folder] + [nm] && OnlyFolder(t0, folder)
    requires nm in todo && todo <= FolderNames(t0, Kids(t0, folder))
    requires UniqueUnder(ta, t0.path[folder], FolderNames(t0, Kids(t0, folder)) - todo)
    requires forall x :: x in Group(t0, folder, nm) && x != keep ==> tb.items[x].trashed
    requires OnlyFolder(tb, keep) ==> UniqueFolders(tc, tb.path[keep])
    ensures UniqueUnder(tc, t0.path[folder], FolderNames(t0, Kids(t0, folder)) - (todo - {nm}))
  {
    RevivedTransitive(t0, ta, tb);
    RevivedTransitive(ta, tb, tc);
    NameDone(FolderNames(t0, Kids(t0, folder)), todo, nm);
    GroupDoneClean(t0, ta, tb, tc, folder, FolderNames(t0, Kids(t0, folder)) - todo, nm, keep);
  }

  lemma GroupDoneLoss(t0: Tree, ta: Tree, tb: Tree, folder: Id, todo: set<string>, nm: string, keep: Id, counts: bool,
                      r: bool, q: bool, w: bool)
    requires Valid(t0) && folder in t0.items && WalkStep(t0, ta, t0.path[folder]) && WalkStep(ta, tb, t0.path[folder])
    requires Untouched(t0, ta, t0.path[folder], todo) && nm in todo && todo <= FolderNames(t0, Kids(t0, folder))
    requires keep in Group(t0, folder, nm) && NamesLoss(t0, folder, todo, counts, r)
    requires GroupLoss(ta, tb, Group(t0, folder, nm), keep, {}, counts, q) && Foreseen(tb, keep, counts, w)
    ensures NamesLoss(t0, folder, todo - {nm}, counts, r || q || w)
  {
    UntouchedAlike(t0, ta, t0.path[folder], todo, nm);
    NamesNext(t0, ta, tb, folder, todo, nm, keep, counts, r, q, w);
  }

  lemma GroupDoneKept(t0: Tree, ta: Tree, tb: Tree, tc: Tree, folder: Id, todo: set<string>, nm: string, keep: Id)
    requires Valid(t0) && folder in t0.items && nm in todo && keep in Group(t0, folder, nm)
    requires WalkStep(t0, ta, t0.path[folder]) && Untouched(t0, ta, t0.path[folder], todo)
    requires WalkStep(ta, tb, t0.path[folder]) && GroupFrame(ta, tb, folder, Group(t0, folder, nm), nm, keep, {})
    requires WalkStep(tb, tc, tb.path[keep]) && tb.path[keep] == t0.path[folder] + [nm]
    requires GroupOk(ta, tb, Group(t0, folder, nm), keep, {})
    requires Keeping(t0, ta, folder, todo) && Keeping(tb, tc, keep, {})
    ensures Keeping(t0, tc, folder, todo - {nm})
  {
    TurnHolds(t0, ta, tb, tc, folder, todo, nm, keep);
    forall x | x in Group(t0, folder, nm) ensures tc.items[x].parent == folder {
      ChildPath(t0, folder, x);
    }
    KeepingNext(t0, ta, tb, tc, folder, todo, nm, keep);
  }

  lemma TurnHolds(t0: Tree, ta: Tree, tb: Tree, tc: Tree, folder: Id, todo: set<string>, nm: string, keep: Id)
    requires Valid(t0) && folder in t0.items && nm in todo && keep in Group(t0, folder, nm)
    requires WalkStep(t0, ta, t0.path[folder]) && Untouched(t0, ta, t0.path[folder], todo)
    requires WalkStep(ta, tb, t0.path[folder]) && GroupFrame(ta, tb, folder, Group(t0, folder, nm), nm, keep, {})
    requires WalkStep(tb, tc, tb.path[keep]) && tb.path[keep] == t0.path[folder] + [nm]
    requires GroupOk(ta, tb, Group(t0, folder, nm), keep, {})
    ensures Turn(t0, ta, tb, tc, folder, nm, keep)
  {
    UntouchedAlike(t0, ta, t0.path[folder], todo, nm);
    OpenGroup(ta, tb, Group(t0, folder, nm), keep, {});
    forall x | x in Group(t0, folder, nm) ensures ta.items[x] == t0.items[x] {
      ChildPath(t0, folder, x);
    }
  }

  lemma UntouchedAlike(t0: Tree, t: Tree, p: Path, todo: set<string>, nm: string)
    requires Valid(t0) && SameItems(t0, t) && Untouched(t0, t, p, todo) && nm in todo
    ensures Alike(t0, t, p + [nm])
  {
    forall x | x in t0.items && Below(p + [nm], t0.path[x]) ensures t.items[x] == t0.items[x] {
      NextName(p, nm, t0.path[x]);
    }
  }

  lemma NameDone(names: set<string>, todo: set<string>, nm: string)
    requires nm in todo && todo <= names
    ensures names - (todo - {nm}) == names - todo + {nm}
  {
  }

  lemma GroupDoneClean(t0: Tree, ta: Tree, tb: Tree, tc: Tree, folder: Id, done: set<string>, nm: string, keep: Id)
    requires Valid(t0) && folder in t0.items && Valid(ta) && Valid(tb) && Valid(tc)
    requires SameItems(t0, ta) && SameItems(t0, tb) && SameItems(ta, tc) && SameItems(tb, tc)
    requires NothingRevived(t0, tb) && NothingRevived(ta, tc) && NothingRevived(tb, tc)
    requires keep in tb.items && tb.path[keep] == t0.path[folder] + [nm] && OnlyFolder(t0, folder)
    requires UniqueUnder(ta, t0.path[folder], done)
    requires forall x :: x in Group(t0, folder, nm) && x != keep ==> tb.items[x].trashed
    requires OnlyFolder(tb, keep) ==> UniqueFolders(tc, tb.path[keep])
    ensures UniqueUnder(tc, t0.path[folder], done + {nm})
  {
    KeepIsOnly(t0, tb, folder, nm, keep);
    assert UniqueUnder(tc, t0.path[folder], done) by { UniqueStays(ta, tc, t0.path[folder], done); }
    GroupDoneUnique(tb, tc, t0.path[folder], done, nm, keep);
  }

  lemma GroupStart(t0: Tree, t: Tree, folder: Id, todo: set<string>, nm: string, keep: Id, counts: bool, r: Report)
    requires Walking(t0, t, folder, todo, counts, r) && nm in todo && Valid(t0) && keep in Group(t0, folder, nm)
    requires OldestOf(t, Group(t0, folder, nm), keep)
    ensures Grouping(t, t, folder, Group(t0, folder, nm), nm, keep, Group(t0, folder, nm) - {keep}, counts, NOTHING)
  {
    assert folder in t0.items && Live(t0, {}, folder) && WalkStep(t0, t, t0.path[folder])
           && Untouched(t0, t, t0.path[folder], todo) by { OpenWalking(t0, t, folder, todo, counts, r); }
    GroupStartsAt(t0, t, folder, todo, nm, keep);
    assert GroupingAt(t, t, folder, Group(t0, folder, nm), nm, keep, Group(t0, folder, nm) - {keep}, counts, NOTHING);
  }

  lemma GroupStartsAt(t0: Tree, t: Tree, folder: Id, todo: set<string>, nm: string, keep: Id)
    requires Valid(t0) && folder in t0.items && Live(t0, {}, folder) && WalkStep(t0, t, t0.path[folder])
    requires Untouched(t0, t, t0.path[folder], todo) && nm in todo && keep in Group(t0, folder, nm)
    requires OldestOf(t, Group(t0, folder, nm), keep)
    ensures Valid(t) && folder in t.items && Live(t, {}, folder) && WalkStep(t, t, t.path[folder])
    ensures GroupInv(t, t, folder, Group(t0, folder, nm), nm, keep, Group(t0, folder, nm) - {keep}, false)
    ensures Ran(t, t, NOTHING) && keep in t.items && GroupOk(t, t, Group(t0, folder, nm), keep, Group(t0, folder, nm) - {keep})
  {
    GroupUntouched(t0, t, folder, todo, nm);
    SurvivesWalkStep(t0, t, t0.path[folder], folder);
    NoStep(t, t0.path[folder]);
    RanNowhere(t);
    GroupBeside(t0, t, folder, nm, keep);
    GroupBegins(t, Group(t0, folder, nm), keep);
  }

  lemma GroupBeside(t0: Tree, t: Tree, folder: Id, nm: string, keep: Id)
    requires Valid(t0) && Valid(t) && SameItems(t0, t) && folder in t0.items && keep in Group(t0, folder, nm)
    ensures Alongside(t, Group(t0, folder, nm), keep)
  {
    forall x | x in Group(t0, folder, nm) ensures x in t.items && t.path[x] == t0.path[folder] + [nm] {
      ChildPath(t0, folder, x);
    }
  }

  lemma GroupUntouched(t0: Tree, t: Tree, folder: Id, todo: set<string>, nm: string)
    requires Valid(t0) && folder in t0.items && WalkStep(t0, t, t0.path[folder]) && nm in todo
    requires Untouched(t0, t, t0.path[folder], todo)
    ensures forall x :: x in Group(t0, folder, nm) ==>
              && t.items[x] == t0.items[x] && Child(t, folder, x) && t.items[x].folder && t.items[x].name == nm
  {
    forall x | x in Group(t0, folder, nm)
      ensures t.items[x] == t0.items[x] && Child(t, folder, x)
    {
      ChildPath(t0, folder, x);
      assert Placed(t, x);
    }
  }

  /** The folders listed at the start under one name are still named so, and there is one. */
  lemma GroupListing(t0: Tree, t: Tree, folder: Id, todo: set<string>, nm: string, counts: bool, r: Report)
    requires Walking(t0, t, folder, todo, counts, r) && nm in todo && Valid(t0)
    ensures Group(t0, folder, nm) != {} && Group(t0, folder, nm) <= t.items.Keys && Kids(t0, folder) <= t.items.Keys
    ensures Group(t0, folder, nm) ==
            set x | x in Kids(t0, folder) && t.items[x].folder && t.items[x].name == nm
  {
    OpenWalking(t0, t, folder, todo, counts, r);
    var x :| x in Kids(t0, folder) && t0.items[x].folder && t0.items[x].name == nm;
    assert x in Group(t0, folder, nm);
  }

  lemma NoStep(t: Tree, p: Path)
    requires Valid(t)
    ensures WalkStep(t, t, p)
  {
  }

  lemma WalkStart(t: Tree, folder: Id, counts: bool)
    requires Valid(t) && folder in t.items && t.items[folder].folder && Live(t, {}, folder)
    ensures Walking(t, t, folder, FolderNames(t, Kids(t, folder)), counts, NOTHING)
  {
    NoStep(t, t.path[folder]);
    RanNowhere(t);
    NamesStart(t, folder, counts);
    KeepingStarts(t, folder);
  }

  lemma WalkEnd(t0: Tree, t: Tree, folder: Id, counts: bool, r: Report)
    requires Walking(t0, t, folder, {}, counts, r)
    ensures Walks(t0, t, folder, counts, r)
  {
    OpenWalking(t0, t, folder, {}, counts, r);
    NamesEnd(t0, folder, counts, r.dropped);
    if OnlyFolder(t0, folder) && !r.conflict {
      forall x | LiveFolder(t, x) && Below(t0.path[folder], t.path[x])
        ensures t.path[x][|t0.path[folder]|] in FolderNames(t0, Kids(t0, folder)) - {}
      {
        FirstNameListed(t0, t, folder, x);
      }
    }
  }

  lemma FirstNameListed(t0: Tree, t: Tree, folder: Id, x: Id)
    requires Valid(t0) && folder in t0.items && OnlyFolder(t0, folder)
    requires Valid(t) && SameItems(t0, t) && NothingRevived(t0, t)
    requires LiveFolder(t, x) && Below(t0.path[folder], t.path[x])
    ensures t.path[x][|t0.path[folder]|] in FolderNames(t0, Kids(t0, folder))
  {
    var a := LiveAncestor(t, x, |t0.path[folder]| + 1);
    DirectChild(t0, folder, a);
    assert a in Kids(t0, folder);
  }

  lemma GroupKeepLive(ta: Tree, tb: Tree, folder: Id, group: set<Id>, nm: string, keep: Id, counts: bool, r: Report)
    requires Grouping(ta, tb, folder, group, nm, keep, {}, counts, r)
    ensures Valid(tb) && keep in tb.items && tb.items[keep].folder && Live(tb, {}, keep)
  {
    OpenGrouping(ta, tb, folder, group, nm, keep, {}, counts, r);
    assert Child(ta, folder, keep) && Placed(tb, keep);
    SurvivesWalkStep(ta, tb, ta.path[folder], folder);
  }
}
