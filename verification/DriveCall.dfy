/**
 One call of merge_into in scripts/drive-merge-dups.py, all told: what it may rely on, what it leaves
 and reports, and the steps of its loop. `counts` tells whether a nested merge that leaves its folder in
 place counts for the folder around it. In the script it does not; its intent is that it does.
 */
module DriveCall {
  import opened DriveTree
  import opened DriveMerge
  import opened DriveReport
  import opened DriveInside
  import opened DriveLoss
  import opened DriveOrder

  /** `MergePre`, folded. */
  ghost predicate Ready(t: Tree, keep: Id, dup: Id, cut: set<Id>)
  {
    forall x {:trigger MergePre(x, keep, dup, cut)} :: x == t ==> MergePre(x, keep, dup, cut)
  }

  /** The folder stays if a file clashes in it, and in the intended reading only if something is left in it. */
  ghost predicate Stays(t: Tree, t': Tree, keep: Id, dup: Id, counts: bool, stays: bool)
  {
    && Valid(t) && Valid(t') && dup in t'.items
    && stays == !t'.items[dup].trashed
    && (DirectClash(t, keep, dup) ==> stays)
    && (stays && !counts ==> DirectClash(t, keep, dup))
    && (stays ==> HasFile(t', dup))
  }

  ghost predicate MergePost(t: Tree, t': Tree, keep: Id, dup: Id, cut: set<Id>, counts: bool, stays: bool, r: Report)
  {
    && Valid(t) && dup in t.items && MergeStep(t, t', keep, dup, cut)
    && LocalOk(t, t', keep, dup) && Orderly(t, t', keep, dup)
    && Ran(t, t', r)
    && Stays(t, t', keep, dup, counts, stays)
    && (stays ==> r.conflict) && Fair(counts, r)
    && LossDone(t, keep, dup, counts, r.dropped)
  }

  ghost predicate Merges(t: Tree, t': Tree, keep: Id, dup: Id, cut: set<Id>, counts: bool, stays: bool, r: Report)
  {
    forall x {:trigger MergePost(t, x, keep, dup, cut, counts, stays, r)} :: x == t' ==>
      MergePost(t, x, keep, dup, cut, counts, stays, r)
  }

  lemma OpenMerges(t: Tree, t': Tree, keep: Id, dup: Id, cut: set<Id>, counts: bool, stays: bool, r: Report)
    requires Merges(t, t', keep, dup, cut, counts, stays, r)
    ensures MergePost(t, t', keep, dup, cut, counts, stays, r)
  {
  }

  /** The state of the loop, folded. */
  ghost predicate Going(t0: Tree, keep: Id, dup: Id, cut: set<Id>, counts: bool, s: Loop, kept: bool, r: Report)
  {
    forall x {:trigger GoingAt(t0, keep, dup, cut, counts, x, kept, r)} :: x == s ==>
      GoingAt(t0, keep, dup, cut, counts, x, kept, r)
  }

  lemma OpenGoing(t0: Tree, keep: Id, dup: Id, cut: set<Id>, counts: bool, s: Loop, kept: bool, r: Report)
    requires Going(t0, keep, dup, cut, counts, s, kept, r)
    ensures GoingAt(t0, keep, dup, cut, counts, s, kept, r)
  {
  }

  /** `kept`: some nested merge left its folder in place. */
  ghost predicate GoingAt(t0: Tree, keep: Id, dup: Id, cut: set<Id>, counts: bool, s: Loop, kept: bool, r: Report)
  {
    && LoopInv(t0, keep, dup, cut, s)
    && LocalOk(t0, s.t, keep, dup) && OrderOk(t0, keep, dup, s)
    && InsideOk(t0, dup, s, kept)
    && Ran(t0, s.t, r)
    && LossOk(t0, keep, dup, counts, s, kept, r.dropped)
    && (s.leftBehind > 0 || kept ==> r.conflict) && Fair(counts, r)
  }

  // -------- The loop

  lemma Starts(t: Tree, keep: Id, dup: Id, cut: set<Id>, counts: bool, folders: map<string, Id>, files: set<string>)
    requires Ready(t, keep, dup, cut) && Valid(t)
    requires folders.Keys == FolderNames(t, Kids(t, keep)) && files == FileNames(t, Kids(t, keep))
    requires forall nm :: nm in folders ==> folders[nm] in Kids(t, keep) && t.items[folders[nm]].folder
                                            && t.items[folders[nm]].name == nm
    ensures Going(t, keep, dup, cut, counts, Loop(t, {}, Kids(t, dup), folders, files, 0), false, NOTHING)
  {
    assert MergePre(t, keep, dup, cut);
    LoopStart(t, keep, dup, cut, folders);
    RanNowhere(t);
    LossStarts(t, keep, dup, counts, Loop(t, {}, Kids(t, dup), folders, files, 0));
    OrderStarts(t, keep, dup, Loop(t, {}, Kids(t, dup), folders, files, 0));
  }

  /** What the loop may do with the next child. */
  lemma NextChild(t0: Tree, keep: Id, dup: Id, cut: set<Id>, counts: bool, s: Loop, kept: bool, r: Report)
    requires Going(t0, keep, dup, cut, counts, s, kept, r)
    ensures s.pending <= s.t.items.Keys && Valid(s.t)
  {
    OpenGoing(t0, keep, dup, cut, counts, s, kept, r);
    forall c | c in s.pending ensures c in s.t.items {
      PendingChild(t0, keep, dup, cut, s, c);
    }
    OpenTable(keep, s);
  }

  lemma NestedReady(t0: Tree, keep: Id, dup: Id, cut: set<Id>, counts: bool, s: Loop, kept: bool, r: Report, c: Id)
    requires Going(t0, keep, dup, cut, counts, s, kept, r)
    requires c in s.pending && c in s.t.items && s.t.items[c].folder && s.t.items[c].name in s.folders
    ensures var k := s.folders[s.t.items[c].name];
      && Ready(s.t, k, c, cut + s.settled) && keep in t0.path && k in t0.path
      && s.t.path == t0.path && |t0.path[k]| == |t0.path[keep]| + 1
  {
    OpenGoing(t0, keep, dup, cut, counts, s, kept, r);
    NestedPre(t0, keep, dup, cut, s, c);
  }

  lemma GoesNested(t0: Tree, t1: Tree, keep: Id, dup: Id, cut: set<Id>, counts: bool, s: Loop, kept: bool, r: Report,
                   k: Id, c: Id, stays: bool, q: Report)
    requires Going(t0, keep, dup, cut, counts, s, kept, r)
    requires OldestPending(s, c) && s.t.items[c].folder
    requires s.t.items[c].name in s.folders && k == s.folders[s.t.items[c].name]
    requires Merges(s.t, t1, k, c, cut + s.settled, counts, stays, q)
    ensures Going(t0, keep, dup, cut, counts, Nested(s, t1, c), kept || stays, And(r, q))
  {
    OpenGoing(t0, keep, dup, cut, counts, s, kept, r);
    OpenMerges(s.t, t1, k, c, cut + s.settled, counts, stays, q);
    AfterNested(t0, t1, keep, dup, cut, s, k, c);
    OpenTree(t0, keep, dup, cut, s);
    NestedFacts(t0, keep, dup, cut, s, k, c);
    GoesNestedInside(t0, t1, keep, dup, cut, s, kept, k, c, stays);
    RanInTurn(t0, s.t, t1, r, q);
    OrderAfterNested(t0, t1, keep, dup, cut, s, k, c);
    LossAfterNested(t0, t1, keep, dup, cut, counts, s, k, c, kept, r.dropped, stays, q.dropped);
  }

  lemma GoesNestedInside(t0: Tree, t1: Tree, keep: Id, dup: Id, cut: set<Id>, s: Loop, kept: bool, k: Id, c: Id, stays: bool)
    requires TreeOk(t0, keep, dup, cut, s) && ChildOk(t0, dup, s) && LocalOk(t0, s.t, keep, dup) && InsideOk(t0, dup, s, kept)
    requires c in s.pending && Valid(s.t) && c in s.t.items && s.t.items[c].folder
    requires Child(s.t, keep, k) && LocalOk(s.t, t1, k, c)
    requires Valid(t1) && c in t1.items && stays == !t1.items[c].trashed && (stays ==> HasFile(t1, c))
    ensures LocalOk(t0, t1, keep, dup) && InsideOk(t0, dup, Nested(s, t1, c), kept || stays)
  {
    OpenLocal(s.t, t1, k, c);
    InsideNested(t0, t1, keep, dup, cut, s, k, c, kept);
    PendingChild(t0, keep, dup, cut, s, c);
    BaseHolds(t0, keep, dup, cut, s);
    OpenLocal(t0, s.t, keep, dup);
    LocalNested(t0, s.t, t1, keep, dup, k, c);
  }

  lemma GoesConflict(t0: Tree, keep: Id, dup: Id, cut: set<Id>, counts: bool, s: Loop, kept: bool, r: Report, c: Id)
    requires Going(t0, keep, dup, cut, counts, s, kept, r)
    requires OldestPending(s, c) && !s.t.items[c].folder && s.t.items[c].name in s.files
    ensures Going(t0, keep, dup, cut, counts, LeftBehind(s, c), kept, And(r, Report(true, false)))
  {
    OpenGoing(t0, keep, dup, cut, counts, s, kept, r);
    AfterConflict(t0, keep, dup, cut, s, c);
    InsideConflict(t0, keep, dup, cut, s, c, kept);
    PendingChild(t0, keep, dup, cut, s, c);
    BaseHolds(t0, keep, dup, cut, s);
    var g := TakenBy(keep, s, s.t.items[c].name);
    ConflictRan(s.t, keep, dup, c, g);
    RanInTurn(t0, s.t, s.t, r, Report(true, false));
    OrderAfterConflict(t0, keep, dup, cut, s, c);
    LossAfterConflict(t0, keep, dup, cut, counts, s, c, kept, r.dropped);
  }

  lemma GoesMove(t0: Tree, keep: Id, dup: Id, cut: set<Id>, counts: bool, s: Loop, kept: bool, r: Report, c: Id)
    requires Going(t0, keep, dup, cut, counts, s, kept, r) && OldestPending(s, c)
    requires if s.t.items[c].folder then s.t.items[c].name !in s.folders else s.t.items[c].name !in s.files
    ensures Going(t0, keep, dup, cut, counts, MovedOver(s, c, keep), kept, r)
  {
    OpenGoing(t0, keep, dup, cut, counts, s, kept, r);
    AfterMove(t0, keep, dup, cut, s, c);
    GoesMoveRan(t0, keep, dup, cut, s, c, r);
    InsideMove(t0, keep, dup, cut, s, c, kept);
    OrderAfterMove(t0, keep, dup, cut, s, c);
    LossAfterMove(t0, keep, dup, cut, counts, s, c, kept, r.dropped);
  }

  lemma GoesMoveRan(t0: Tree, keep: Id, dup: Id, cut: set<Id>, s: Loop, c: Id, r: Report)
    requires TreeOk(t0, keep, dup, cut, s) && ChildOk(t0, dup, s) && TableOk(keep, s) && c in s.pending && c in s.t.items
    requires Ran(t0, s.t, r) && LocalOk(t0, s.t, keep, dup)
    requires if s.t.items[c].folder then s.t.items[c].name !in s.folders else s.t.items[c].name !in s.files
    ensures Valid(s.t) && Valid(Moved(s.t, c, keep)) && Ran(t0, Moved(s.t, c, keep), r) && LocalOk(t0, Moved(s.t, c, keep), keep, dup)
  {
    PendingChild(t0, keep, dup, cut, s, c);
    BaseHolds(t0, keep, dup, cut, s);
    var t1 := Moved(s.t, c, keep);
    MovedValid(s.t, c, keep);
    MovedSame(s.t, keep, c);
    assert Ran(s.t, t1, NOTHING) by { MoveRan(s.t, keep, dup, cut, s, c); }
    assert Ran(t0, t1, r) by {
      RanInTurn(t0, s.t, t1, r, NOTHING);
      assert And(r, NOTHING) == r;
    }
    OpenLocal(t0, s.t, keep, dup);
    assert Under(s.t, dup, dup) && Under(s.t, dup, c);
    LocalOne(t0, s.t, t1, keep, dup, c);
  }

  lemma MoveRan(t: Tree, keep: Id, dup: Id, cut: set<Id>, s: Loop, c: Id)
    requires t == s.t && Valid(t) && TableOk(keep, s) && Child(t, dup, c) && keep in t.items && dup in t.items
    requires t.items[keep].folder && t.path[keep] == t.path[dup] && Live(t, {}, keep) && Live(t, {}, dup)
    requires Valid(Moved(t, c, keep))
    requires if t.items[c].folder then t.items[c].name !in s.folders else t.items[c].name !in s.files
    ensures Ran(t, Moved(t, c, keep), NOTHING)
  {
    MovedSame(t, keep, c);
    MoveLive(t, keep, dup, {}, c);
    OpenTable(keep, s);
    MoveTwins(t, keep, c);
  }

  // -------- The end

  lemma EndsStaying(t0: Tree, keep: Id, dup: Id, cut: set<Id>, counts: bool, s: Loop, kept: bool, r: Report)
    requires Going(t0, keep, dup, cut, counts, s, kept, r) && s.pending == {}
    requires s.leftBehind > 0 || (counts && kept)
    ensures Merges(t0, s.t, keep, dup, cut, counts, true, r)
  {
    OpenGoing(t0, keep, dup, cut, counts, s, kept, r);
    LoopEnd(t0, keep, dup, cut, s);
    InsideEnd(t0, keep, dup, cut, s, kept);
    OrderEnd(t0, keep, dup, s);
    LossAtEnd(t0, keep, dup, cut, counts, s, kept, r.dropped, r.dropped || (s.leftBehind == 0 && kept));
  }

  lemma EndsTrashed(t0: Tree, keep: Id, dup: Id, cut: set<Id>, counts: bool, s: Loop, kept: bool, r: Report)
    requires Going(t0, keep, dup, cut, counts, s, kept, r) && s.pending == {}
    requires s.leftBehind == 0 && !(counts && kept)
    ensures dup in s.t.items && Merges(t0, Trashed(s.t, dup), keep, dup, cut, counts, false, And(r, Report(false, kept)))
  {
    OpenGoing(t0, keep, dup, cut, counts, s, kept, r);
    LoopEnd(t0, keep, dup, cut, s);
    InsideEnd(t0, keep, dup, cut, s, kept);
    BaseHolds(t0, keep, dup, cut, s);
    TrashRan(s.t, dup, kept);
    RanInTurn(t0, s.t, Trashed(s.t, dup), r, Report(false, kept));
    TrashDup(t0, s.t, keep, dup, cut);
    EndsLocal(t0, s.t, keep, dup);
    OrderEnd(t0, keep, dup, s);
    OrderTrashed(t0, s.t, keep, dup);
    LossAtEnd(t0, keep, dup, cut, counts, s, kept, r.dropped, r.dropped || kept);
  }

  lemma EndsLocal(t0: Tree, t: Tree, keep: Id, dup: Id)
    requires LocalOk(t0, t, keep, dup) && Valid(t) && keep in t.items && dup in t.items && dup != t.root && dup != keep
    ensures LocalOk(t0, Trashed(t, dup), keep, dup)
  {
    OpenLocal(t0, t, keep, dup);
    TrashedSame(t, dup);
    assert Under(t, dup, dup);
    LocalOne(t0, t, Trashed(t, dup), keep, dup, dup);
  }
}
