/**
 Where a merge reaches in scripts/drive-merge-dups.py: into its two folders and what lies in them,
 whatever else has their path. So what was left in place inside the duplicate stays as it is.
 */
module DriveInside {
  import opened DriveTree
  import opened DriveMerge
  import opened DriveReport

  ghost predicate Region(t: Tree, keep: Id, dup: Id, x: Id)
    requires Valid(t) && x in t.items
  {
    Under(t, keep, x) || Under(t, dup, x)
  }

  /** Outside the two folders nothing changes and nothing comes in from there; nor does `keep` itself. */
  ghost predicate Local(t: Tree, t': Tree, keep: Id, dup: Id)
  {
    && Valid(t) && Valid(t') && t'.items.Keys == t.items.Keys && t'.path == t.path && t'.root == t.root
    && (forall x :: x in t.items && (x == keep || !Region(t, keep, dup, x)) ==> t'.items[x] == t.items[x])
    && (forall x :: x in t.items && Region(t', keep, dup, x) ==> Region(t, keep, dup, x))
  }

  lemma RegionInside(t: Tree, keep: Id, dup: Id, k: Id, c: Id, x: Id)
    requires Valid(t) && Child(t, keep, k) && Child(t, dup, c) && keep in t.items && dup in t.items && x in t.items
    requires Region(t, k, c, x)
    ensures Region(t, keep, dup, x)
  {
    assert Under(t, keep, keep) && Under(t, dup, dup);
    if Under(t, k, x) { UnderTransitive(t, keep, k, x); } else { UnderTransitive(t, dup, c, x); }
  }

  lemma {:induction false} RegionShrinks(t: Tree, t1: Tree, keep: Id, dup: Id, k: Id, c: Id, x: Id)
    requires Local(t, t1, k, c) && Child(t, keep, k) && Child(t, dup, c) && keep in t.items && dup in t.items
    requires x in t.items && Region(t1, keep, dup, x)
    ensures Region(t, keep, dup, x)
    decreases |t.path[x]|
  {
    if x != keep && x != dup {
      if Region(t, k, c, x) {
        RegionInside(t, keep, dup, k, c, x);
      } else {
        RegionShrinks(t, t1, keep, dup, k, c, t1.items[x].parent);
        assert Placed(t, x);
      }
    }
  }

  lemma LocalNested(t0: Tree, t: Tree, t1: Tree, keep: Id, dup: Id, k: Id, c: Id)
    requires Local(t0, t, keep, dup) && Local(t, t1, k, c) && keep in t.items && dup in t.items
    requires Child(t, keep, k) && Child(t, dup, c) && t.path[keep] == t.path[dup]
    ensures Local(t0, t1, keep, dup)
  {
    forall x | x in t.items && Region(t1, keep, dup, x) ensures Region(t0, keep, dup, x) {
      RegionShrinks(t, t1, keep, dup, k, c, x);
    }
    forall x | x in t.items && (x == keep || !Region(t0, keep, dup, x)) ensures t1.items[x] == t0.items[x] {
      assert !Region(t, k, c, x) by { NotInside(t, keep, dup, k, c, x); }
    }
  }

  lemma NotInside(t: Tree, keep: Id, dup: Id, k: Id, c: Id, x: Id)
    requires Valid(t) && Child(t, keep, k) && Child(t, dup, c) && keep in t.items && dup in t.items && x in t.items
    requires t.path[keep] == t.path[dup] && (x == keep || !Region(t, keep, dup, x))
    ensures !Region(t, k, c, x)
  {
    ChildPath(t, keep, k);
    ChildPath(t, dup, c);
    if x == keep {
      KeepOutside(t, keep, dup, k, c);
    } else if Region(t, k, c, x) {
      RegionInside(t, keep, dup, k, c, x);
    }
  }

  lemma KeepOutside(t: Tree, keep: Id, dup: Id, k: Id, c: Id)
    requires Valid(t) && keep in t.items && dup in t.items && k in t.items && c in t.items
    requires |t.path[keep]| < |t.path[k]| && |t.path[keep]| < |t.path[c]|
    ensures !Region(t, k, c, keep)
  {
    if Under(t, k, keep) { UnderIsBelow(t, k, keep); }
    if Under(t, c, keep) { UnderIsBelow(t, c, keep); }
  }

  /** A change to `c` alone, an item of the duplicate that stays in one of the two folders. */
  lemma LocalOne(t0: Tree, t: Tree, t1: Tree, keep: Id, dup: Id, c: Id)
    requires Local(t0, t, keep, dup) && keep in t.items && dup in t.items && c in t.items && c != keep && Under(t, dup, c)
    requires Valid(t1) && t1.items.Keys == t.items.Keys && t1.path == t.path && t1.root == t.root
    requires forall x :: x in t.items && x != c ==> t1.items[x] == t.items[x]
    ensures Local(t0, t1, keep, dup)
  {
    forall x | x in t.items && Region(t1, keep, dup, x) ensures Region(t0, keep, dup, x) {
      RegionSame(t, t1, keep, dup, c, x);
    }
  }

  lemma {:induction false} RegionSame(t: Tree, t1: Tree, keep: Id, dup: Id, c: Id, x: Id)
    requires Valid(t) && Valid(t1) && t1.items.Keys == t.items.Keys && t1.path == t.path && t1.root == t.root
    requires keep in t.items && dup in t.items && c in t.items && Under(t, dup, c) && x in t.items
    requires forall y :: y in t.items && y != c ==> t1.items[y] == t.items[y]
    requires Region(t1, keep, dup, x)
    ensures Region(t, keep, dup, x)
    decreases |t.path[x]|
  {
    if x != keep && x != dup && x != c {
      RegionSame(t, t1, keep, dup, c, t1.items[x].parent);
      assert Placed(t, x);
    }
  }

  // -------- What was left in place stays as it is

  /** What lies in `a`, and `a`, is out of reach for a merge of two other folders of the same depth. */
  lemma OutOfReach(t: Tree, a: Id, k: Id, c: Id, x: Id)
    requires Valid(t) && a in t.items && k in t.items && c in t.items && x in t.items && Under(t, a, x)
    requires |t.path[a]| == |t.path[k]| && |t.path[a]| == |t.path[c]| && a != k && a != c
    ensures !Region(t, k, c, x)
  {
    if Under(t, k, x) { UnderOnce(t, a, k, x); }
    if Under(t, c, x) { UnderOnce(t, a, c, x); }
  }

  /** With the items in `a` as they were, `a` has what it had. */
  lemma {:induction false} UnderStays(t: Tree, t1: Tree, a: Id, x: Id)
    requires Valid(t) && Valid(t1) && t1.items.Keys == t.items.Keys && t1.path == t.path && t1.root == t.root
    requires a in t.items && x in t.items && Under(t, a, x)
    requires forall y :: y in t.items && Under(t, a, y) ==> t1.items[y] == t.items[y]
    ensures Under(t1, a, x)
    decreases |t.path[x]|
  {
    if x != a {
      UnderStays(t, t1, a, t.items[x].parent);
      assert Placed(t1, x);
    }
  }

  lemma HasFileStays(t: Tree, t1: Tree, a: Id)
    requires Valid(t) && Valid(t1) && t1.items.Keys == t.items.Keys && t1.path == t.path && t1.root == t.root
    requires a in t.items && HasFile(t, a)
    requires forall y :: y in t.items && Under(t, a, y) ==> t1.items[y] == t.items[y]
    ensures HasFile(t1, a)
  {
    var f :| f in t.items && !t.items[f].folder && f != a && Under(t, a, f);
    UnderStays(t, t1, a, f);
  }

  /** What lies in a child lies in the folder. */
  lemma HasFileAbove(t: Tree, d: Id, c: Id)
    requires Valid(t) && d in t.items && Child(t, d, c) && (if t.items[c].folder then HasFile(t, c) else true)
    ensures HasFile(t, d)
  {
    assert Under(t, d, d) && Under(t, d, c);
    ChildPath(t, d, c);
    if t.items[c].folder {
      var f :| f in t.items && !t.items[f].folder && f != c && Under(t, c, f);
      UnderTransitive(t, d, c, f);
      UnderIsBelow(t, d, f);
      assert f != d by { if f == d { UnderIsBelow(t, c, f); } }
    }
  }

  // -------- The settled children

  /** A folder still there holds a file; a file is as it was. */
  ghost predicate SettledOk(t0: Tree, t: Tree, dup: Id, c: Id)
    requires Valid(t0) && Valid(t)
  {
    && c in t0.items && c in t.items
    && (t0.items[c].folder && !t.items[c].trashed ==> HasFile(t, c))
    && (!t0.items[c].folder ==> t.items[c] == t0.items[c])
  }

  ghost predicate StillThere(t0: Tree, t: Tree, c: Id)
  {
    c in t0.items && c in t.items && t0.items[c].folder && !t.items[c].trashed
  }

  ghost predicate InsideInv(t0: Tree, dup: Id, s: Loop, kept: bool)
  {
    && Valid(t0) && Valid(s.t)
    && (forall c :: c in s.settled ==> SettledOk(t0, s.t, dup, c))
    && (kept <==> exists c :: c in s.settled && StillThere(t0, s.t, c))
    && (s.leftBehind > 0 <==> exists c :: c in s.settled && c in t0.items && !t0.items[c].folder)
  }

  ghost predicate InsideOk(t0: Tree, dup: Id, s: Loop, kept: bool)
  {
    forall x {:trigger InsideInv(t0, dup, x, kept)} :: x == s ==> InsideInv(t0, dup, x, kept)
  }

  ghost predicate LocalOk(t0: Tree, t: Tree, keep: Id, dup: Id)
  {
    forall x {:trigger Local(t0, x, keep, dup)} :: x == t ==> Local(t0, x, keep, dup)
  }

  lemma OpenInside(t0: Tree, dup: Id, s: Loop, kept: bool)
    requires InsideOk(t0, dup, s, kept)
    ensures InsideInv(t0, dup, s, kept)
  {
  }

  lemma OpenLocal(t0: Tree, t: Tree, keep: Id, dup: Id)
    requires LocalOk(t0, t, keep, dup)
    ensures Local(t0, t, keep, dup)
  {
  }

  /** A child settled before keeps its item and all in it. */
  ghost predicate Spared(t: Tree, t1: Tree, settled: set<Id>)
    requires Valid(t)
  {
    && Valid(t1) && t1.items.Keys == t.items.Keys && t1.path == t.path && t1.root == t.root
    && (forall c, y :: c in settled && c in t.items && y in t.items && Under(t, c, y) ==> t1.items[y] == t.items[y])
  }

  lemma SettledStays(t0: Tree, t: Tree, t1: Tree, dup: Id, settled: set<Id>, c: Id)
    requires Valid(t0) && Valid(t) && Spared(t, t1, settled) && c in settled && SettledOk(t0, t, dup, c)
    ensures SettledOk(t0, t1, dup, c) && t1.items[c] == t.items[c]
  {
    assert Under(t, c, c);
    if t0.items[c].folder && !t.items[c].trashed {
      HasFileStays(t, t1, c);
    }
  }

  lemma SparedByNested(t0: Tree, t1: Tree, keep: Id, dup: Id, cut: set<Id>, s: Loop, k: Id, c: Id)
    requires TreeOk(t0, keep, dup, cut, s) && ChildOk(t0, dup, s) && c in s.pending
    requires Valid(s.t) && Child(s.t, keep, k) && Local(s.t, t1, k, c)
    ensures Spared(s.t, t1, s.settled)
  {
    PendingChild(t0, keep, dup, cut, s, c);
    OpenTree(t0, keep, dup, cut, s);
    OpenChild(t0, dup, s);
    ChildPath(s.t, keep, k);
    forall a | a in s.settled && a in s.t.items
      ensures forall y :: y in s.t.items && Under(s.t, a, y) ==> t1.items[y] == s.t.items[y]
    {
      assert a in Kids(t0, dup);
      ChildPath(t0, dup, a);
      SparedOne(s.t, t1, k, c, a);
    }
  }

  lemma SparedOne(t: Tree, t1: Tree, k: Id, c: Id, a: Id)
    requires Local(t, t1, k, c) && Valid(t) && a in t.items && k in t.items && c in t.items
    requires |t.path[a]| == |t.path[k]| && |t.path[a]| == |t.path[c]| && a != k && a != c
    ensures t1.items.Keys == t.items.Keys
    ensures forall y :: y in t.items && Under(t, a, y) ==> t1.items[y] == t.items[y]
  {
    forall y | y in t.items && Under(t, a, y) ensures t1.items[y] == t.items[y] {
      OutOfReach(t, a, k, c, y);
    }
  }

  lemma SparedByMove(t0: Tree, keep: Id, dup: Id, cut: set<Id>, s: Loop, c: Id)
    requires TreeOk(t0, keep, dup, cut, s) && ChildOk(t0, dup, s) && c in s.pending
    requires Valid(s.t) && c in s.t.items && Valid(Moved(s.t, c, keep))
    ensures Spared(s.t, Moved(s.t, c, keep), s.settled)
  {
    PendingChild(t0, keep, dup, cut, s, c);
    OpenChild(t0, dup, s);
    forall a, y | a in s.settled && a in s.t.items && y in s.t.items && Under(s.t, a, y) ensures y != c {
      assert a in Kids(t0, dup);
      ChildPath(t0, dup, a);
      if y == c {
        assert Under(s.t, c, c);
        UnderOnce(s.t, a, c, c);
      }
    }
  }

  lemma InsideNested(t0: Tree, t1: Tree, keep: Id, dup: Id, cut: set<Id>, s: Loop, k: Id, c: Id, kept: bool)
    requires TreeOk(t0, keep, dup, cut, s) && ChildOk(t0, dup, s) && InsideOk(t0, dup, s, kept) && c in s.pending
    requires Valid(s.t) && Child(s.t, keep, k) && Local(s.t, t1, k, c) && c in s.t.items && s.t.items[c].folder
    requires !t1.items[c].trashed ==> HasFile(t1, c)
    ensures InsideOk(t0, dup, Nested(s, t1, c), kept || !t1.items[c].trashed)
  {
    PendingChild(t0, keep, dup, cut, s, c);
    OpenInside(t0, dup, s, kept);
    SparedByNested(t0, t1, keep, dup, cut, s, k, c);
    SettledWith(t0, t1, dup, s, Nested(s, t1, c), c, kept);
  }

  lemma InsideMove(t0: Tree, keep: Id, dup: Id, cut: set<Id>, s: Loop, c: Id, kept: bool)
    requires TreeOk(t0, keep, dup, cut, s) && ChildOk(t0, dup, s) && InsideOk(t0, dup, s, kept) && c in s.pending
    requires Valid(s.t) && c in s.t.items && Valid(Moved(s.t, c, keep))
    ensures InsideOk(t0, dup, MovedOver(s, c, keep), kept)
  {
    PendingChild(t0, keep, dup, cut, s, c);
    OpenInside(t0, dup, s, kept);
    SparedByMove(t0, keep, dup, cut, s, c);
    var t1 := Moved(s.t, c, keep);
    forall a | a in s.settled ensures SettledOk(t0, t1, dup, a) && t1.items[a] == s.t.items[a] {
      SettledStays(t0, s.t, t1, dup, s.settled, a);
    }
    InsideSame(t0, dup, s, MovedOver(s, c, keep), kept);
  }

  lemma InsideSame(t0: Tree, dup: Id, s: Loop, s': Loop, kept: bool)
    requires InsideInv(t0, dup, s, kept) && Valid(s'.t) && s'.settled == s.settled && s'.leftBehind == s.leftBehind
    requires forall a :: a in s.settled ==> SettledOk(t0, s'.t, dup, a) && a in s.t.items && s'.t.items[a] == s.t.items[a]
    ensures InsideInv(t0, dup, s', kept)
  {
    forall a | a in s.settled ensures StillThere(t0, s'.t, a) <==> StillThere(t0, s.t, a) {
    }
  }

  /** One more folder settled, all others spared. */
  lemma SettledWith(t0: Tree, t1: Tree, dup: Id, s: Loop, s': Loop, c: Id, kept: bool)
    requires InsideInv(t0, dup, s, kept) && Spared(s.t, t1, s.settled) && c !in s.settled
    requires s'.t == t1 && s'.settled == s.settled + {c} && s'.leftBehind == s.leftBehind
    requires c in t0.items && c in t1.items && t0.items[c].folder && (!t1.items[c].trashed ==> HasFile(t1, c))
    ensures InsideInv(t0, dup, s', kept || !t1.items[c].trashed)
  {
    forall a | a in s.settled
      ensures SettledOk(t0, t1, dup, a) && (StillThere(t0, t1, a) <==> StillThere(t0, s.t, a))
    {
      SettledStays(t0, s.t, t1, dup, s.settled, a);
    }
    assert SettledOk(t0, t1, dup, c);
    assert StillThere(t0, t1, c) <==> !t1.items[c].trashed;
  }

  lemma InsideConflict(t0: Tree, keep: Id, dup: Id, cut: set<Id>, s: Loop, c: Id, kept: bool)
    requires TreeOk(t0, keep, dup, cut, s) && ChildOk(t0, dup, s) && InsideOk(t0, dup, s, kept)
    requires c in s.pending && c in s.t.items && !s.t.items[c].folder
    ensures InsideOk(t0, dup, LeftBehind(s, c), kept)
  {
    PendingChild(t0, keep, dup, cut, s, c);
    OpenInside(t0, dup, s, kept);
    assert SettledOk(t0, s.t, dup, c) && !StillThere(t0, s.t, c);
  }

  /** At the end: a folder with something settled still in it holds a file, one without is empty. */
  lemma InsideEnd(t0: Tree, keep: Id, dup: Id, cut: set<Id>, s: Loop, kept: bool)
    requires TreeOk(t0, keep, dup, cut, s) && ChildOk(t0, dup, s) && InsideOk(t0, dup, s, kept) && s.pending == {}
    ensures Valid(s.t) && dup in s.t.items
    ensures if s.leftBehind > 0 || kept then HasFile(s.t, dup) else forall c :: !Child(s.t, dup, c)
  {
    SettledChildren(t0, keep, dup, cut, s);
    OpenInside(t0, dup, s, kept);
    if s.leftBehind > 0 || kept {
      var c :| c in s.settled && c in s.t.items && !s.t.items[c].trashed && SettledOk(t0, s.t, dup, c);
      HasFileAbove(s.t, dup, c);
    } else {
      forall c ensures !Child(s.t, dup, c) {
        if c in s.settled {
          assert SettledOk(t0, s.t, dup, c);
        }
      }
    }
  }

  /** At the end the children of the folder are what was settled and not trashed since. */
  lemma SettledChildren(t0: Tree, keep: Id, dup: Id, cut: set<Id>, s: Loop)
    requires TreeOk(t0, keep, dup, cut, s) && ChildOk(t0, dup, s) && s.pending == {}
    ensures Valid(s.t) && dup in s.t.items
    ensures forall c :: c in s.settled && c in s.t.items && !s.t.items[c].trashed ==> Child(s.t, dup, c)
    ensures forall c :: Child(s.t, dup, c) ==> c in s.settled
    ensures forall c :: c in s.settled && c in t0.items ==> !t0.items[c].trashed
  {
    OpenTree(t0, keep, dup, cut, s);
    OpenChild(t0, dup, s);
    forall c | c in s.settled && c in s.t.items && !s.t.items[c].trashed ensures Child(s.t, dup, c) {
      assert c in Kids(t0, dup) && Placed(s.t, c);
    }
    forall c | Child(s.t, dup, c) ensures c in s.settled {
      assert c in Kids(s.t, dup);
    }
    forall c | c in s.settled && c in t0.items ensures !t0.items[c].trashed {
      assert c in Kids(t0, dup);
    }
  }
}
