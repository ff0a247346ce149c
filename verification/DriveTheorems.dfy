/**
 What a run of the merge script guarantees, and where the code as written falls short of it. `t` is
 the tree before, `t'` the tree after and `r` what the run reported; `DriveScript.Drive.Walk` and
 `MergeInto` establish the relations assumed here for every drive and every listing order.
 */
module DriveTheorems {
  import opened DriveTree
  import opened DriveMerge
  import opened DriveReport
  import opened DriveLoss
  import opened DriveCall
  import opened DrivePairs
  import opened DriveWalk
  import opened DriveInside
  import opened DriveOrder
  import opened DriveGroup
  import opened DriveKept

  /** Whatever conflicts it meets, a run neither adds nor removes a path that has a live file. */
  lemma RunKeepsLivePaths(t: Tree, t': Tree, folder: Id, counts: bool, r: Report)
    requires WalkPost(t, t', folder, counts, r)
    ensures LivePaths(t', {}) == LivePaths(t, {})
  {
    forall p | p in LivePaths(t', {})
      ensures p in LivePaths(t, {})
    {
      var x :| x in t'.items && LiveFile(t', {}, x) && t'.path[x] == p;
      assert LiveFile(t, {}, x);
    }
  }

  // -------- Which folders a run keeps

  /** `x` is older than every namesake beside it, and so are the folders above it, up to `d`. */
  ghost predicate Foremost(t: Tree, d: Id, x: Id)
    requires Valid(t) && x in t.items
    decreases |t.path[x]|
  {
    || x == d
    || (&& x != t.root && Placed(t, x) && t.items[x].folder && !t.items[x].trashed
        && Foremost(t, d, t.items[x].parent)
        && forall y :: y in Group(t, t.items[x].parent, t.items[x].name) && y != x ==>
             t.items[x].created < t.items[y].created)
  }

  lemma {:induction false} ForemostIsKept(t: Tree, t': Tree, d: Id, kept: set<Id>, x: Id)
    requires Chosen(t, t', d, {}, kept) && x in t.items && Foremost(t, d, x)
    ensures x in kept
    decreases |t.path[x]|
  {
    if x != d {
      var f, nm := t.items[x].parent, t.items[x].name;
      ForemostIsKept(t, t', d, kept, f);
      assert x in Group(t, f, nm) && KeptAt(t, t', d, {}, kept, f);
      var k :| k in kept && OldestOf(t, Group(t, f, nm), k);
    }
  }

  lemma {:induction false} KeptIsLive(t: Tree, t': Tree, d: Id, kept: set<Id>, x: Id)
    requires Chosen(t, t', d, {}, kept) && x in kept && x in t.items && Live(t', {}, d)
    ensures t'.items[x] == t.items[x] && Live(t', {}, x)
    decreases |t.path[x]|
  {
    assert KeptAt(t, t', d, {}, kept, x) && Placed(t', x);
    if x != d && x != t.root {
      assert Placed(t, x) && t.items[x].parent in kept;
      KeptIsLive(t, t', d, kept, t.items[x].parent);
    }
  }

  lemma WalkedStaysLive(t: Tree, t': Tree, d: Id, counts: bool, r: Report)
    requires WalkPost(t, t', d, counts, r) && Live(t, {}, d)
    ensures Valid(t') && d in t'.items && Live(t', {}, d)
  {
    SurvivesWalkStep(t, t', t.path[d], d);
  }

  /** Over a whole run: a folder older than every namesake beside it, on the way down, stays as it is and in its place. */
  lemma OldestStays(t: Tree, t': Tree, d: Id, counts: bool, r: Report, x: Id)
    requires WalkPost(t, t', d, counts, r) && Live(t, {}, d) && x in t.items && Foremost(t, d, x)
    ensures t'.items[x] == t.items[x] && Live(t', {}, x)
  {
    OpenKeeping(t, t', d, {});
    var kept :| Chosen(t, t', d, {}, kept);
    WalkedStaysLive(t, t', d, counts, r);
    ForemostIsKept(t, t', d, kept, x);
    KeptIsLive(t, t', d, kept, x);
  }

  /**
   With equal ages too: of every group in such a folder, one that none in the group is older than stays as it is
   and in its place. So whatever the run trashes there had a namesake no younger that stays.
   */
  lemma OneOldestStays(t: Tree, t': Tree, d: Id, counts: bool, r: Report, f: Id, nm: string) returns (k: Id)
    requires WalkPost(t, t', d, counts, r) && Live(t, {}, d) && f in t.items && Foremost(t, d, f) && Group(t, f, nm) != {}
    ensures OldestOf(t, Group(t, f, nm), k) && t'.items[k] == t.items[k] && Live(t', {}, k)
    ensures f == d ==> Gathers(t, t', Group(t, d, nm), k)
  {
    OpenKeeping(t, t', d, {});
    var kept :| Chosen(t, t', d, {}, kept);
    WalkedStaysLive(t, t', d, counts, r);
    ForemostIsKept(t, t', d, kept, f);
    assert KeptAt(t, t', d, {}, kept, f);
    k :| k in kept && OldestOf(t, Group(t, f, nm), k);
    KeptIsLive(t, t', d, kept, k);
  }

  /** A merge changes nothing in the folder it keeps, and no item outside the duplicate. */
  lemma MergeLeavesKept(t: Tree, t': Tree, keep: Id, dup: Id, cut: set<Id>, counts: bool, stays: bool, r: Report, x: Id)
    requires MergePre(t, keep, dup, cut) && MergePost(t, t', keep, dup, cut, counts, stays, r)
    requires x in t.items && (Under(t, keep, x) || !Under(t, dup, x))
    ensures t'.items[x] == t.items[x]
  {
    OpenOrderly(t, t', keep, dup);
    if Under(t, keep, x) {
      BesideInner(t, t', dup, keep, x);
    }
  }

  /**
   What a merge does with the children of the duplicate, told by name and kind: they stay if the kept folder has
   one of that name and kind; else an oldest of them moves over, as it is, and the others stay.
   */
  lemma MergeMovesOldest(t: Tree, t': Tree, keep: Id, dup: Id, cut: set<Id>, counts: bool, stays: bool, r: Report,
                         nm: string, kind: bool)
    requires MergePost(t, t', keep, dup, cut, counts, stays, r) && Named(t, dup, nm, kind) != {}
    ensures Named(t, keep, nm, kind) != {} ==> forall x :: x in Named(t, dup, nm, kind) ==> t'.items[x].parent == dup
    ensures Named(t, keep, nm, kind) == {} ==>
              exists m :: OldestOf(t, Named(t, dup, nm, kind), m) && t'.items[m] == t.items[m].(parent := keep)
                          && forall x :: x in Named(t, dup, nm, kind) && x != m ==> t'.items[x].parent == dup
  {
    OpenOrderly(t, t', keep, dup);
    var ids := Named(t, dup, nm, kind);
    assert Sorted(t, t', keep, dup, nm, kind, ids);
  }

  /**
   Below the two folders merged, age does not matter: of two folders of one name the one in the kept folder stays as
   it is and the other is merged into it, even if that one is the older.
   */
  lemma InnerNamesakeStays(t: Tree, t': Tree, keep: Id, dup: Id, cut: set<Id>, counts: bool, stays: bool, r: Report,
                           k: Id, c: Id)
    requires MergePre(t, keep, dup, cut) && MergePost(t, t', keep, dup, cut, counts, stays, r)
    requires Child(t, keep, k) && Child(t, dup, c) && t.items[k].folder && t.items[c].folder
    requires t.items[k].name == t.items[c].name
    ensures t'.items[k] == t.items[k] && t'.items[c].parent == dup
  {
    var nm := t.items[k].name;
    assert Under(t, keep, keep) && Under(t, keep, k);
    MergeLeavesKept(t, t', keep, dup, cut, counts, stays, r, k);
    assert k in Named(t, keep, nm, true) && c in Named(t, dup, nm, true);
    MergeMovesOldest(t, t', keep, dup, cut, counts, stays, r, nm, true);
  }

  // -------- When a run reaches its purpose

  /** The purpose of the script: every file still there, and no two folders of one name in one place. */
  ghost predicate Merged(t: Tree, t': Tree)
    requires Valid(t) && Valid(t')
  {
    KeepsFiles(t, t') && UniqueFolders(t', [])
  }

  lemma RootIsOnly(t: Tree)
    requires Valid(t)
    ensures OnlyFolder(t, t.root)
  {
    forall y | LiveFolder(t, y) && t.path[y] == t.path[t.root]
      ensures y == t.root
    {
      assert Placed(t, y);
    }
  }

  lemma ParentOfLive(t: Tree, x: Id)
    requires Valid(t) && x in t.items && x != t.root && Live(t, {}, x)
    ensures LiveFolder(t, t.items[x].parent)
    ensures t.path[t.items[x].parent] == t.path[x][..|t.path[x]| - 1]
  {
    assert Placed(t, x);
  }

  lemma SamePathSameFolder(t: Tree, x: Id, y: Id)
    requires Valid(t) && UniqueFolders(t, []) && LiveFolder(t, x) && LiveFolder(t, y) && t.path[x] == t.path[y]
    ensures x == y
  {
    if t.path[x] == [] {
      assert Placed(t, x) && Placed(t, y);
    } else {
      assert Below([], t.path[x]);
    }
  }

  lemma OnePathOneParent(t: Tree, f: Id, g: Id)
    requires Valid(t) && UniqueFolders(t, []) && LiveFile(t, {}, f) && LiveFile(t, {}, g) && t.path[f] == t.path[g]
    ensures !Apart(t, f, g)
  {
    ParentOfLive(t, f);
    ParentOfLive(t, g);
    SamePathSameFolder(t, t.items[f].parent, t.items[g].parent);
  }

  /** On every drive, a run reaches its purpose exactly if it left no file in place for its name. */
  lemma RunMergesIff(t: Tree, t': Tree, counts: bool, r: Report)
    requires WalkPost(t, t', t.root, counts, r)
    ensures Merged(t, t') <==> !r.conflict
  {
    RootIsOnly(t);
    OpenRan(t, t', r);
    if Merged(t, t') && r.conflict {
      var f, g :| LiveFile(t, {}, f) && LiveFile(t, {}, g) && f != g && t.path[f] == t.path[g]
                  && f in t'.items && g in t'.items && Apart(t', f, g);
      OnePathOneParent(t', f, g);
    }
  }

  /** Two live files of one path in different folders are a conflict, whatever the run does first. */
  lemma SharedPathsPreventMerge(t: Tree, t': Tree, counts: bool, r: Report, f: Id, g: Id)
    requires WalkPost(t, t', t.root, counts, r)
    requires LiveFile(t, {}, f) && LiveFile(t, {}, g) && t.path[f] == t.path[g]
    requires t.items[f].parent != t.items[g].parent
    ensures r.conflict && !Merged(t, t')
  {
    RunMergesIff(t, t', counts, r);
    if Merged(t, t') {
      assert LiveFile(t', {}, f) && LiveFile(t', {}, g);
      OnePathOneParent(t', f, g);
      TwoParents(t, t', f, g);
    }
  }

  lemma TwoParents(t: Tree, t': Tree, f: Id, g: Id)
    requires Valid(t) && Valid(t') && SameItems(t, t') && NoNewTwins(t, t')
    requires LiveFile(t', {}, f) && LiveFile(t', {}, g) && t.path[f] == t.path[g]
    requires t.items[f].parent != t.items[g].parent
    ensures t'.items[f].parent != t'.items[g].parent
  {
    assert Placed(t', f) && Placed(t', g);
  }

  ghost predicate NoTwins(t: Tree)
    requires Valid(t)
  {
    forall f, g ::
      (LiveFile(t, {}, f) && LiveFile(t, {}, g) && t.path[f] == t.path[g] && t.items[f].parent == t.items[g].parent)
      ==> f == g
  }

  /**
   What can be told before the run: it meets no conflict if no two live files share a path, and where no
   folder holds two files of one name only then.
   */
  lemma ConflictForeseen(t: Tree, t': Tree, counts: bool, r: Report)
    requires WalkPost(t, t', t.root, counts, r)
    ensures NoSharedPaths(t) ==> !r.conflict
    ensures NoTwins(t) ==> (NoSharedPaths(t) <==> !r.conflict)
  {
    OpenRan(t, t', r);
    if NoTwins(t) && !NoSharedPaths(t) {
      var f, g :| LiveFile(t, {}, f) && LiveFile(t, {}, g) && t.path[f] == t.path[g] && f != g;
      SharedPathsPreventMerge(t, t', counts, r, f, g);
    }
  }

  // -------- When a run loses a file

  /**
   The run as written loses a file exactly if it trashed a folder that still held one: a folder in which
   a nested merge, whose answer the script drops, had left something in place. `Walk` carries this through
   its loops; here it is read off.
   */
  lemma RunKeepsFilesIff(t: Tree, t': Tree, folder: Id, counts: bool, r: Report)
    requires WalkPost(t, t', folder, counts, r)
    ensures KeepsFiles(t, t') <==> !r.dropped
    ensures r.dropped ==> r.conflict && !counts && !NoSharedPaths(t)
  {
    OpenRan(t, t', r);
  }

  /**
   Where a nested folder left in place keeps the one around it, a run loses no file of any drive: `Walk` and
   `MergeInto` are proved to report no drop then.
   */
  lemma IntendedRunKeepsFiles(t: Tree, t': Tree, folder: Id, r: Report, x: Id)
    requires WalkPost(t, t', folder, true, r)
    ensures LiveFile(t, {}, x) <==> LiveFile(t', {}, x)
    ensures x in t.path ==> x in t'.path && t'.path[x] == t.path[x]
  {
    OpenRan(t, t', r);
  }

  /**
   For one merge of folders that hold no two items of one name and kind in one place, the loss can be
   told before: somewhere a pair of folders without a clashing file of its own holds a pair with one. The
   loop of `MergeInto` keeps `DriveLoss.LossInv` to get there.
   */
  lemma MergeKeepsFilesIff(t: Tree, t': Tree, keep: Id, dup: Id, cut: set<Id>, stays: bool, r: Report)
    requires MergePost(t, t', keep, dup, cut, false, stays, r) && Tidy(t, t.path[dup])
    ensures KeepsFiles(t, t') <==> !Loses(t, keep, dup)
  {
    OpenRan(t, t', r);
  }

  /**
   For a whole run: on a drive where every folder has at most one namesake beside it, and the two hold
   nothing ambiguous, the loss can be told before. It loses a file exactly if some such pair does. Which of
   the two is the older makes no difference.
   */
  lemma WalkKeepsFilesIff(t: Tree, t': Tree, r: Report)
    requires WalkPost(t, t', t.root, false, r) && Paired(t, t.root)
    ensures KeepsFiles(t, t') <==> !TwinLoses(t, t.root)
    ensures forall a, b :: Twin(t, t.root, a, b) && Loses(t, a, b) ==> Loses(t, b, a)
  {
    OpenRan(t, t', r);
    forall a, b | Twin(t, t.root, a, b) && Loses(t, a, b) ensures Loses(t, b, a) {
      TwinPath(t, t.root, a, b);
      LosesSymmetric(t, a, b);
    }
  }

  /**
   Folders of any content: of two files of one name in `c`, a folder of `dup`, and in its only namesake
   `k` one is lost, unless `dup` itself holds a conflicting file.
   */
  lemma NestedConflictLosesFile(t: Tree, t': Tree, keep: Id, dup: Id, k: Id, c: Id, g: Id, f: Id, stays: bool, r: Report)
    requires MergePre(t, keep, dup, {}) && MergePost(t, t', keep, dup, {}, false, stays, r) && !DirectClash(t, keep, dup)
    requires Child(t, dup, c) && Child(t, keep, k) && t.items[c].folder && t.items[k].folder
    requires t.items[c].name == t.items[k].name
    requires forall y :: LiveFolder(t, y) && t.path[y] == t.path[c] ==> y == c || y == k
    requires Child(t, c, f) && Child(t, k, g) && !t.items[f].folder && !t.items[g].folder
    requires t.items[f].name == t.items[g].name
    ensures LiveFile(t, {}, f) && LiveFile(t, {}, g) && t.path[f] == t.path[g]
    ensures !(LiveFile(t', {}, f) && LiveFile(t', {}, g)) && r.dropped
  {
    OpenRan(t, t', r);
    assert c in Kids(t, dup) && k in Kids(t, keep);
    assert t'.items[c].parent == dup;
    if LiveFile(t', {}, f) && LiveFile(t', {}, g) {
      ParentOfLive(t', f);
      ParentOfLive(t', g);
      var pf, pg := t'.items[f].parent, t'.items[g].parent;
      assert LiveFolder(t, pf) && LiveFolder(t, pg);
      assert t.path[pf] == t.path[c] && t.path[pg] == t.path[c];
      TwoParents(t, t', f, g);
      ParentOfLive(t', c);
    }
  }

  // -------- The smallest such drive: /a/x/u twice

  function SevenItems(): map<Id, Item> {
    map[0 := Item("", true, 0, 0, false),
        1 := Item("a", true, 1, 0, false), 2 := Item("a", true, 2, 0, false),
        3 := Item("x", true, 3, 1, false), 4 := Item("x", true, 4, 2, false),
        5 := Item("u", false, 5, 3, false), 6 := Item("u", false, 6, 4, false)]
  }

  function Seven(): (t: Tree)
    ensures Valid(t)
  {
    var t := Tree(SevenItems(), 0, map[0 := [], 1 := ["a"], 2 := ["a"], 3 := ["a", "x"], 4 := ["a", "x"],
                                       5 := ["a", "x", "u"], 6 := ["a", "x", "u"]]);
    assert ["a"] == [] + ["a"] && ["a", "x"] == ["a"] + ["x"] && ["a", "x", "u"] == ["a", "x"] + ["u"];
    assert forall x :: x in t.items ==> Placed(t, x);
    t
  }

  lemma SevenLive()
    ensures forall x :: x in Seven().items ==> Live(Seven(), {}, x)
  {
    var t := Seven();
    assert Live(t, {}, 0);
    assert Live(t, {}, 1) && Live(t, {}, 2);
    assert Live(t, {}, 3) && Live(t, {}, 4);
  }

  lemma SevenNoClash()
    ensures !DirectClash(Seven(), 1, 2)
  {
    forall f | f in Kids(Seven(), 2) ensures Seven().items[f].folder {
      assert f == 4;
    }
  }

  lemma SevenTwoOnly(y: Id)
    requires LiveFolder(Seven(), y) && Seven().path[y] == Seven().path[4]
    ensures y == 3 || y == 4
  {
    assert |Seven().path[y]| == 2;
  }

  lemma SevenChildren()
    ensures Child(Seven(), 2, 4) && Child(Seven(), 1, 3) && Child(Seven(), 4, 6) && Child(Seven(), 3, 5)
  {
  }

  /** Merging the second folder into the first drops one of the two files, however the run lists them. */
  lemma SevenItemsLoseAFile(t': Tree, stays: bool, r: Report)
    requires MergePost(Seven(), t', 1, 2, {}, false, stays, r)
    ensures MergePre(Seven(), 1, 2, {})
    ensures LiveFile(Seven(), {}, 5) && LiveFile(Seven(), {}, 6)
    ensures !stays && r.dropped && !(LiveFile(t', {}, 5) && LiveFile(t', {}, 6))
  {
    SevenLive();
    SevenNoClash();
    SevenChildren();
    forall y | LiveFolder(Seven(), y) && Seven().path[y] == Seven().path[4] ensures y == 3 || y == 4 {
      SevenTwoOnly(y);
    }
    NestedConflictLosesFile(Seven(), t', 1, 2, 3, 4, 5, 6, stays, r);
  }

  lemma SevenPaired()
    ensures Paired(Seven(), 0) && Twin(Seven(), 0, 1, 2)
  {
    forall a, b | Twin(Seven(), 0, a, b) ensures (a == 1 && b == 2) || (a == 2 && b == 1) {
      SevenSiblings(a, b);
    }
    SevenTidy();
    assert Under(Seven(), 0, 0) && Under(Seven(), 0, 1) && Under(Seven(), 0, 2);
  }

  lemma SevenSiblings(a: Id, b: Id)
    requires a in SevenItems() && b in SevenItems() && a != b && Siblings(Seven(), a, b)
    ensures (a == 1 && b == 2) || (a == 2 && b == 1)
  {
  }

  lemma SevenTidy()
    ensures Tidy(Seven(), Seven().path[1]) && Tidy(Seven(), Seven().path[2])
  {
    forall a, b | a in SevenItems() && b in SevenItems() && Siblings(Seven(), a, b) && Below(["a"], Seven().path[a])
      ensures a == b
    {
      if a != b { SevenSiblings(a, b); }
    }
  }

  lemma SevenLoses()
    ensures Loses(Seven(), 1, 2)
  {
    var t := Seven();
    SevenNoClash();
    SevenChildren();
    assert 5 in Kids(t, 3) && 6 in Kids(t, 4);
    assert Clashes(t, FileNames(t, Kids(t, 3)), Kids(t, 4), 6);
    assert Matched(t, 1, 2, 3, 4) && DirectClash(t, 3, 4);
    assert Under(t, 1, 1) && Under(t, 2, 2);
    assert Pair(t, 1, 2, 1, 2) && Dropping(t, 1, 2);
  }

  lemma SevenTwinLoses()
    ensures Paired(Seven(), Seven().root) && TwinLoses(Seven(), Seven().root)
  {
    SevenPaired();
    SevenLoses();
  }

  lemma LostOne(t: Tree, t': Tree, f: Id, g: Id)
    requires Valid(t) && Valid(t') && !KeepsFiles(t, t')
    requires forall x :: x in t.items && !t.items[x].folder ==> x == f || x == g
    ensures !(LiveFile(t', {}, f) && LiveFile(t', {}, g))
  {
  }

  lemma SevenFiles(x: Id)
    requires x in SevenItems() && !SevenItems()[x].folder
    ensures x == 5 || x == 6
  {
  }

  /** A run over it from the root loses one of the two files. */
  lemma SevenItemsRun(t': Tree, r: Report)
    requires WalkPost(Seven(), t', 0, false, r)
    ensures LiveFile(Seven(), {}, 5) && LiveFile(Seven(), {}, 6)
    ensures !(LiveFile(t', {}, 5) && LiveFile(t', {}, 6))
  {
    var t := Seven();
    SevenLive();
    assert !KeepsFiles(t, t') by {
      SevenTwinLoses();
      WalkKeepsFilesIff(t, t', r);
    }
    forall x | x in t.items && !t.items[x].folder ensures x == 5 || x == 6 {
      SevenFiles(x);
    }
    LostOne(t, t', 5, 6);
  }
}
