/**
 One group of same-name folders in scripts/drive-merge-dups.py: the oldest is kept whole, and each free
 place in it goes to the oldest of the others that has something for it.
 */
module DriveGroup {
  import opened DriveTree
  import opened DriveMerge
  import opened DriveReport
  import opened DriveInside
  import opened DriveOrder

  /** All that lay in `a` is as it was. */
  ghost predicate Whole(t0: Tree, t: Tree, a: Id)
    requires Valid(t0)
  {
    && t.items.Keys == t0.items.Keys
    && forall x :: x in t0.items && Under(t0, a, x) ==> t.items[x] == t0.items[x]
  }

  /** Those of `ids` that hold something with this name and of this kind. */
  ghost function Having(t: Tree, ids: set<Id>, nm: string, kind: bool): set<Id>
    requires Valid(t)
  {
    set d | d in ids && Named(t, d, nm, kind) != {}
  }

  /** Of what the folders `from` have for this place, an oldest in an oldest of them has come to `keep`. */
  ghost predicate CameFrom(t0: Tree, t: Tree, keep: Id, from: set<Id>, nm: string, kind: bool)
    requires Valid(t0)
  {
    exists d, m ::
      && OldestOf(t0, Having(t0, from, nm, kind), d) && OldestOf(t0, Named(t0, d, nm, kind), m)
      && m in t.items && t.items[m] == t0.items[m].(parent := keep)
  }

  /** If the place was free in `keep`, it is taken as soon as a folder dealt with had something for it. */
  ghost predicate Arrived(t0: Tree, t: Tree, group: set<Id>, keep: Id, pending: set<Id>, nm: string, kind: bool)
    requires Valid(t0)
  {
    Named(t0, keep, nm, kind) == {} && Having(t0, group - {keep} - pending, nm, kind) != {} ==>
      CameFrom(t0, t, keep, group - {keep}, nm, kind)
  }

  /** Folders of one path. */
  ghost predicate Alongside(t: Tree, group: set<Id>, keep: Id)
    requires Valid(t)
  {
    keep in t.items && forall x :: x in group ==> x in t.items && t.path[x] == t.path[keep]
  }

  ghost predicate AgesInv(t0: Tree, group: set<Id>, keep: Id, pending: set<Id>)
    requires Valid(t0) && Alongside(t0, group, keep)
  {
    && OldestOf(t0, group, keep)
    && forall p, q :: p in group - {keep} - pending && q in pending && q in group ==>
         t0.items[p].created <= t0.items[q].created
  }

  /** What hangs in `keep` was there, or in a folder dealt with; what is pending has its children. */
  ghost predicate PlacesInv(t0: Tree, t: Tree, group: set<Id>, keep: Id, pending: set<Id>)
    requires Valid(t0) && Valid(t)
  {
    && (forall x :: x in Kids(t, keep) ==> x in Kids(t0, keep) || exists d :: d in group - {keep} - pending && x in Kids(t0, d))
    && (forall q :: q in pending ==> Kids(t, q) == Kids(t0, q))
  }

  ghost predicate GroupKeeps(t0: Tree, t: Tree, group: set<Id>, keep: Id, pending: set<Id>)
  {
    && Valid(t0) && Valid(t) && SameItems(t0, t) && keep in group && pending <= group - {keep}
    && Alongside(t0, group, keep) && AgesInv(t0, group, keep, pending)
    && Whole(t0, t, keep) && (forall q :: q in pending ==> Whole(t0, t, q))
    && PlacesInv(t0, t, group, keep, pending)
    && (forall nm, kind :: Arrived(t0, t, group, keep, pending, nm, kind))
  }

  ghost predicate GroupOk(t0: Tree, t: Tree, group: set<Id>, keep: Id, pending: set<Id>)
  {
    forall x {:trigger GroupKeeps(t0, x, group, keep, pending)} :: x == t ==> GroupKeeps(t0, x, group, keep, pending)
  }

  lemma OpenGroup(t0: Tree, t: Tree, group: set<Id>, keep: Id, pending: set<Id>)
    requires GroupOk(t0, t, group, keep, pending)
    ensures GroupKeeps(t0, t, group, keep, pending)
  {
  }

  lemma GroupBegins(t: Tree, group: set<Id>, keep: Id)
    requires Valid(t) && OldestOf(t, group, keep) && Alongside(t, group, keep)
    ensures GroupOk(t, t, group, keep, group - {keep})
  {
    assert group - {keep} - (group - {keep}) == {};
    forall nm, kind ensures Having(t, group - {keep} - (group - {keep}), nm, kind) == {} {
    }
    assert GroupKeeps(t, t, group, keep, group - {keep});
  }

  // -------- One more folder is merged into `keep`

  lemma WholeStays(t0: Tree, t: Tree, t1: Tree, a: Id, dup: Id)
    requires Valid(t0) && SameItems(t0, t) && Whole(t0, t, a) && Inner(t, t1, dup)
    requires a in t.items && dup in t.items && a != dup && |t.path[a]| == |t.path[dup]|
    ensures Whole(t0, t1, a)
  {
    forall x | x in t0.items && Under(t0, a, x) ensures t1.items[x] == t0.items[x] {
      UnderStays(t0, t, a, x);
      BesideInner(t, t1, dup, a, x);
    }
  }

  /** What has come to hang in a folder of the same path was in `dup` before, or was there. */
  lemma KidsCome(t: Tree, t1: Tree, keep: Id, dup: Id, a: Id, x: Id)
    requires Inner(t, t1, dup) && dup in t.items && a in t.items && t.path[a] == t.path[dup] && x in Kids(t1, a)
    ensures x in Kids(t, a) || x in Kids(t, dup)
  {
    assert Placed(t1, x) && Placed(t, x);
    if Under(t, dup, x) {
      assert x != dup;
      UnderIsBelow(t, dup, t.items[x].parent);
    }
  }

  lemma PendingKids(t: Tree, t1: Tree, keep: Id, dup: Id, q: Id)
    requires OrderlyTo(t, t1, keep, dup) && dup in t.items && q in t.items && t.path[q] == t.path[dup]
    requires q != dup && q != keep
    ensures Kids(t1, q) == Kids(t, q)
  {
    forall x | x in Kids(t1, q) ensures x in Kids(t, q) {
      KidsCome(t, t1, keep, dup, q, x);
      if x in Kids(t, dup) {
        KidGoes(t, t1, keep, dup, x);
      }
    }
    forall x | x in Kids(t, q) ensures x in Kids(t1, q) {
      assert Under(t, q, q) && Under(t, q, x);
      BesideInner(t, t1, dup, q, x);
      assert Placed(t1, x);
    }
  }

  /** A child of `dup` stays there or goes to `keep`. */
  lemma KidGoes(t: Tree, t1: Tree, keep: Id, dup: Id, x: Id)
    requires Valid(t) && t1.items.Keys == t.items.Keys && MovesOldest(t, t1, keep, dup) && x in Kids(t, dup)
    ensures t1.items[x].parent == dup || t1.items[x].parent == keep
  {
    var nm, kind := t.items[x].name, t.items[x].folder;
    var ids := Named(t, dup, nm, kind);
    assert x in ids && Sorted(t, t1, keep, dup, nm, kind, ids);
  }

  lemma PlacesStep(t0: Tree, t: Tree, t1: Tree, group: set<Id>, keep: Id, pending: set<Id>, dup: Id)
    requires Valid(t0) && Valid(t) && SameItems(t0, t) && Alongside(t0, group, keep) && keep in group
    requires pending <= group - {keep} && dup in pending
    requires PlacesInv(t0, t, group, keep, pending) && OrderlyTo(t, t1, keep, dup)
    ensures PlacesInv(t0, t1, group, keep, pending - {dup})
  {
    forall x | x in Kids(t1, keep)
      ensures x in Kids(t0, keep) || exists d :: d in group - {keep} - (pending - {dup}) && x in Kids(t0, d)
    {
      KidsCome(t, t1, keep, dup, keep, x);
      if x in Kids(t, dup) {
        assert dup in group - {keep} - (pending - {dup}) && x in Kids(t0, dup);
      } else if x !in Kids(t0, keep) {
        var d :| d in group - {keep} - pending && x in Kids(t0, d);
        assert d in group - {keep} - (pending - {dup});
      }
    }
    forall q | q in pending - {dup} ensures Kids(t1, q) == Kids(t0, q) {
      PendingKids(t, t1, keep, dup, q);
    }
  }

  /** With its children and all in them as they were, `d` has the same namesakes. */
  lemma SameNamed(t0: Tree, t: Tree, d: Id, nm: string, kind: bool)
    requires Valid(t0) && Valid(t) && SameItems(t0, t) && Kids(t, d) == Kids(t0, d)
    ensures Named(t, d, nm, kind) == Named(t0, d, nm, kind)
  {
  }

  /** The place was free in `keep`, and no folder dealt with had anything for it: so it is free still. */
  lemma StillFree(t0: Tree, t: Tree, group: set<Id>, keep: Id, pending: set<Id>, nm: string, kind: bool)
    requires Valid(t0) && Valid(t) && SameItems(t0, t) && PlacesInv(t0, t, group, keep, pending)
    requires Named(t0, keep, nm, kind) == {} && Having(t0, group - {keep} - pending, nm, kind) == {}
    ensures Named(t, keep, nm, kind) == {}
  {
    forall x | x in Kids(t, keep) ensures x !in Named(t, keep, nm, kind) {
      if x in Kids(t0, keep) {
        assert x in Named(t0, keep, nm, kind) <==> t0.items[x].name == nm && t0.items[x].folder == kind;
      } else {
        var d :| d in group - {keep} - pending && x in Kids(t0, d);
        NothingThere(t0, group - {keep} - pending, d, x, nm, kind);
      }
    }
  }

  lemma NothingThere(t: Tree, ids: set<Id>, d: Id, x: Id, nm: string, kind: bool)
    requires Valid(t) && d in ids && x in Kids(t, d) && Having(t, ids, nm, kind) == {}
    ensures !(t.items[x].name == nm && t.items[x].folder == kind)
  {
    assert d in Having(t, ids, nm, kind) <==> Named(t, d, nm, kind) != {};
    assert x in Named(t, d, nm, kind) <==> t.items[x].name == nm && t.items[x].folder == kind;
  }

  /** What came to `keep` earlier is out of reach for the next merge. */
  lemma CameStays(t0: Tree, t: Tree, t1: Tree, keep: Id, from: set<Id>, dup: Id, nm: string, kind: bool)
    requires Valid(t0) && SameItems(t0, t) && Inner(t, t1, dup) && keep in t.items && dup in t.items && keep != dup
    requires |t.path[keep]| == |t.path[dup]| && CameFrom(t0, t, keep, from, nm, kind)
    ensures CameFrom(t0, t1, keep, from, nm, kind)
  {
    var d, m :| OldestOf(t0, Having(t0, from, nm, kind), d) && OldestOf(t0, Named(t0, d, nm, kind), m)
                && m in t.items && t.items[m] == t0.items[m].(parent := keep);
    assert m in Kids(t0, d) && Placed(t, m);
    assert Under(t, keep, keep) && Under(t, keep, m);
    BesideInner(t, t1, dup, keep, m);
    assert m in t1.items && t1.items[m] == t0.items[m].(parent := keep);
  }

  /** The first folder that has something for a free place fills it. */
  lemma FirstCame(t0: Tree, t: Tree, t1: Tree, group: set<Id>, keep: Id, pending: set<Id>, dup: Id, nm: string, kind: bool)
    requires Valid(t0) && Valid(t) && SameItems(t0, t) && Alongside(t0, group, keep)
    requires pending <= group - {keep} && dup in pending
    requires forall q :: q in pending ==> t0.items[dup].created <= t0.items[q].created
    requires Whole(t0, t, dup) && Kids(t, dup) == Kids(t0, dup) && Named(t, keep, nm, kind) == {}
    requires t1.items.Keys == t.items.Keys && MovesOldest(t, t1, keep, dup)
    requires Having(t0, group - {keep} - pending, nm, kind) == {} && Named(t0, dup, nm, kind) != {}
    ensures CameFrom(t0, t1, keep, group - {keep}, nm, kind)
  {
    var ids, from := Named(t0, dup, nm, kind), group - {keep};
    SameNamed(t0, t, dup, nm, kind);
    assert Sorted(t, t1, keep, dup, nm, kind, ids);
    var m :| OldestOf(t, ids, m) && m in ids && t1.items[m] == t.items[m].(parent := keep)
             && forall x :: x in ids && x in t.items && x != m ==> t1.items[x].parent == dup;
    assert OldestOf(t0, ids, m);
    assert Under(t0, dup, dup) && Under(t0, dup, m);
    assert forall e :: e in Having(t0, from, nm, kind) ==> e in pending || e in Having(t0, from - pending, nm, kind);
    assert OldestOf(t0, Having(t0, from, nm, kind), dup);
  }

  lemma HavingOne(t: Tree, ids: set<Id>, d: Id, nm: string, kind: bool)
    requires Valid(t)
    ensures Having(t, ids + {d}, nm, kind) == Having(t, ids, nm, kind) + if Named(t, d, nm, kind) != {} then {d} else {}
  {
  }

  lemma ArrivedStep(t0: Tree, t: Tree, t1: Tree, group: set<Id>, keep: Id, pending: set<Id>, dup: Id, nm: string, kind: bool)
    requires Valid(t0) && Valid(t) && SameItems(t0, t) && Alongside(t0, group, keep) && keep in group
    requires pending <= group - {keep} && dup in pending && Whole(t0, t, dup) && PlacesInv(t0, t, group, keep, pending)
    requires forall q :: q in pending ==> t0.items[dup].created <= t0.items[q].created
    requires OrderlyTo(t, t1, keep, dup) && Arrived(t0, t, group, keep, pending, nm, kind)
    ensures Arrived(t0, t1, group, keep, pending - {dup}, nm, kind)
  {
    var from := group - {keep};
    assert from - (pending - {dup}) == from - pending + {dup};
    HavingOne(t0, from - pending, dup, nm, kind);
    if Named(t0, keep, nm, kind) == {} && Having(t0, from - (pending - {dup}), nm, kind) != {} {
      if Having(t0, from - pending, nm, kind) != {} {
        CameStays(t0, t, t1, keep, from, dup, nm, kind);
      } else {
        StillFree(t0, t, group, keep, pending, nm, kind);
        FirstCame(t0, t, t1, group, keep, pending, dup, nm, kind);
      }
    }
  }

  lemma GroupStep(t0: Tree, t: Tree, t1: Tree, group: set<Id>, keep: Id, pending: set<Id>, dup: Id)
    requires GroupOk(t0, t, group, keep, pending) && dup in pending && Orderly(t, t1, keep, dup)
    requires forall q :: q in pending && q in t.items && dup in t.items ==> t.items[dup].created <= t.items[q].created
    ensures GroupOk(t0, t1, group, keep, pending - {dup})
  {
    OpenGroup(t0, t, group, keep, pending);
    OpenOrderly(t, t1, keep, dup);
    SameTransitive(t0, t, t1);
    assert dup in t.items && forall q :: q in pending ==> q in t.items && t0.items[dup].created <= t0.items[q].created;
    WholeStays(t0, t, t1, keep, dup);
    forall q | q in pending - {dup} ensures Whole(t0, t1, q) {
      WholeStays(t0, t, t1, q, dup);
    }
    PlacesStep(t0, t, t1, group, keep, pending, dup);
    forall nm, kind ensures Arrived(t0, t1, group, keep, pending - {dup}, nm, kind) {
      ArrivedStep(t0, t, t1, group, keep, pending, dup, nm, kind);
    }
    assert GroupKeeps(t0, t1, group, keep, pending - {dup});
  }
}
