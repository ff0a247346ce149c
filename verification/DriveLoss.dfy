/**
 When merge_into of scripts/drive-merge-dups.py loses a file, exactly. The two folders and all below
 them are taken to be tidy: no folder holds two items of one name and kind.
 */
module DriveLoss {
  import opened DriveTree
  import opened DriveMerge
  import opened DriveReport

  /** Two items of one name and kind in one folder, or one item twice. */
  predicate Siblings(t: Tree, x: Id, y: Id)
    requires x in t.items && y in t.items
  {
    && x != t.root && y != t.root && t.items[x].parent == t.items[y].parent
    && !t.items[x].trashed && !t.items[y].trashed
    && t.items[x].name == t.items[y].name && t.items[x].folder == t.items[y].folder
  }

  ghost predicate Tidy(t: Tree, p: Path)
    requires Valid(t)
  {
    forall x, y :: x in t.items && y in t.items && Siblings(t, x, y) && Below(p, t.path[x]) ==> x == y
  }

  /** Child folders of one name: the pair that a nested merge is about. */
  ghost predicate Matched(t: Tree, keep: Id, dup: Id, k: Id, c: Id)
    requires Valid(t)
  {
    && k in Kids(t, keep) && c in Kids(t, dup) && t.items[k].folder && t.items[c].folder
    && t.items[k].name == t.items[c].name
  }

  /** Folders of the two trees with one path. */
  ghost predicate Pair(t: Tree, keep: Id, dup: Id, k: Id, c: Id)
    requires Valid(t)
  {
    && k in t.items && c in t.items && t.items[k].folder && t.items[c].folder
    && Under(t, keep, k) && Under(t, dup, c) && t.path[k] == t.path[c]
  }

  ghost predicate Dropping(t: Tree, k: Id, c: Id)
    requires Valid(t)
  {
    !DirectClash(t, k, c) && exists k', c' :: Matched(t, k, c, k', c') && DirectClash(t, k', c')
  }

  /**
   Somewhere in the two trees a pair of folders without a clashing file of their own holds a pair with
   one: the outer folder is trashed although the inner one was left in place.
   */
  ghost predicate Loses(t: Tree, keep: Id, dup: Id)
    requires Valid(t)
  {
    exists k, c :: Pair(t, keep, dup, k, c) && Dropping(t, k, c)
  }

  ghost predicate LosesAmong(t: Tree, keep: Id, dup: Id, done: set<Id>)
    requires Valid(t)
  {
    exists k, c :: Matched(t, keep, dup, k, c) && c in done && Loses(t, k, c)
  }

  ghost predicate ClashAmong(t: Tree, keep: Id, dup: Id, done: set<Id>)
    requires Valid(t)
  {
    exists k, c :: Matched(t, keep, dup, k, c) && c in done && DirectClash(t, k, c)
  }

  // -------- Pairs from the top

  /** The child of `a` on the way to `x`. */
  lemma {:induction false} TopChild(t: Tree, a: Id, x: Id) returns (b: Id)
    requires Valid(t) && a in t.items && x in t.items && Under(t, a, x) && x != a
    ensures b in Kids(t, a) && Under(t, b, x) && Below(t.path[a], t.path[x])
    ensures t.items[b].name == t.path[x][|t.path[a]|]
    ensures t.items[x].folder ==> t.items[b].folder
    decreases |t.path[x]|
  {
    var p := t.items[x].parent;
    if p == a {
      b := x;
    } else {
      b := TopChild(t, a, p);
    }
  }

  lemma PairFromTop(t: Tree, keep: Id, dup: Id, k: Id, c: Id)
    requires Valid(t) && keep in t.items && dup in t.items && t.path[keep] == t.path[dup]
    requires Pair(t, keep, dup, k, c)
    ensures (k == keep && c == dup)
            || exists k', c' :: Matched(t, keep, dup, k', c') && Pair(t, k', c', k, c)
  {
    UnderIsBelow(t, keep, k);
    UnderIsBelow(t, dup, c);
    if k != keep {
      var k' := TopChild(t, keep, k);
      var c' := TopChild(t, dup, c);
      assert Matched(t, keep, dup, k', c') && Pair(t, k', c', k, c);
    }
  }

  lemma PairInside(t: Tree, keep: Id, dup: Id, k': Id, c': Id, k: Id, c: Id)
    requires Valid(t) && Matched(t, keep, dup, k', c') && Pair(t, k', c', k, c)
    ensures Pair(t, keep, dup, k, c)
  {
    assert Under(t, keep, keep) && Under(t, dup, dup);
    UnderTransitive(t, keep, k', k);
    UnderTransitive(t, dup, c', c);
  }

  lemma LosesUnrolled(t: Tree, keep: Id, dup: Id)
    requires Valid(t) && keep in t.items && dup in t.items && t.path[keep] == t.path[dup]
    requires t.items[keep].folder && t.items[dup].folder
    ensures Loses(t, keep, dup) <==> Dropping(t, keep, dup) || LosesAmong(t, keep, dup, Kids(t, dup))
  {
    if Loses(t, keep, dup) {
      LosesFromTop(t, keep, dup);
    }
    if Dropping(t, keep, dup) {
      assert Pair(t, keep, dup, keep, dup);
    }
    if LosesAmong(t, keep, dup, Kids(t, dup)) {
      LosesInside(t, keep, dup);
    }
  }

  lemma LosesFromTop(t: Tree, keep: Id, dup: Id)
    requires Valid(t) && keep in t.items && dup in t.items && t.path[keep] == t.path[dup] && Loses(t, keep, dup)
    ensures Dropping(t, keep, dup) || LosesAmong(t, keep, dup, Kids(t, dup))
  {
    var k, c :| Pair(t, keep, dup, k, c) && Dropping(t, k, c);
    PairFromTop(t, keep, dup, k, c);
    if k != keep || c != dup {
      var k', c' :| Matched(t, keep, dup, k', c') && Pair(t, k', c', k, c);
      assert Loses(t, k', c');
    }
  }

  lemma LosesInside(t: Tree, keep: Id, dup: Id)
    requires Valid(t) && LosesAmong(t, keep, dup, Kids(t, dup))
    ensures Loses(t, keep, dup)
  {
    var k', c' :| Matched(t, keep, dup, k', c') && Loses(t, k', c');
    var k, c :| Pair(t, k', c', k, c) && Dropping(t, k, c);
    PairInside(t, keep, dup, k', c', k, c);
  }

  // -------- What is the same below one path loses the same

  ghost predicate Alike(t: Tree, t': Tree, p: Path)
  {
    && t'.root == t.root && t'.path == t.path && t'.items.Keys == t.items.Keys && t.path.Keys == t.items.Keys
    && (forall x :: x in t.items ==>
          t'.items[x].name == t.items[x].name && t'.items[x].folder == t.items[x].folder)
    && (forall x :: x in t.items && Below(p, t.path[x]) ==> t'.items[x] == t.items[x])
  }

  lemma KidsAlike(t: Tree, t': Tree, p: Path, d: Id)
    requires Valid(t) && Valid(t') && Alike(t, t', p) && d in t.items && (t.path[d] == p || Below(p, t.path[d]))
    ensures Kids(t', d) == Kids(t, d)
  {
    forall x | x in t.items ensures Child(t, d, x) <==> Child(t', d, x) {
      assert Placed(t, x) && Placed(t', x);
    }
  }

  lemma ClashAlike(t: Tree, t': Tree, p: Path, k: Id, c: Id)
    requires Valid(t) && Valid(t') && Alike(t, t', p) && k in t.items && c in t.items && t.path[k] == t.path[c]
    requires t.path[k] == p || Below(p, t.path[k])
    ensures DirectClash(t', k, c) <==> DirectClash(t, k, c)
  {
    KidsAlike(t, t', p, k);
    KidsAlike(t, t', p, c);
    var kids := Kids(t, c);
    assert FileNames(t', Kids(t, k)) == FileNames(t, Kids(t, k));
    forall f ensures Clashes(t', FileNames(t, Kids(t, k)), kids, f) <==> Clashes(t, FileNames(t, Kids(t, k)), kids, f) {
      assert FileNames(t', kids - {f}) == FileNames(t, kids - {f});
    }
  }

  lemma {:induction false} UnderAlike(t: Tree, t': Tree, p: Path, a: Id, x: Id)
    requires Valid(t) && Valid(t') && Alike(t, t', p) && a in t.items && x in t.items && t.path[a] == p
    requires Under(t, a, x)
    ensures Under(t', a, x)
    decreases |t.path[x]|
  {
    if x != a {
      UnderIsBelow(t, a, x);
      assert Placed(t', x);
      UnderAlike(t, t', p, a, t.items[x].parent);
    }
  }

  lemma DroppingAlike(t: Tree, t': Tree, p: Path, k: Id, c: Id)
    requires Valid(t) && Valid(t') && Alike(t, t', p) && k in t.items && c in t.items && t.path[k] == t.path[c]
    requires t.path[k] == p || Below(p, t.path[k])
    requires Dropping(t, k, c)
    ensures Dropping(t', k, c)
  {
    ClashAlike(t, t', p, k, c);
    KidsAlike(t, t', p, k);
    KidsAlike(t, t', p, c);
    var k', c' :| Matched(t, k, c, k', c') && DirectClash(t, k', c');
    ChildPath(t, k, k');
    ChildPath(t, c, c');
    assert Below(p, t.path[k']);
    ClashAlike(t, t', p, k', c');
    assert Matched(t', k, c, k', c');
  }

  lemma LosesAlike(t: Tree, t': Tree, k: Id, c: Id)
    requires Valid(t) && Valid(t') && k in t.items && c in t.items && t.path[k] == t.path[c]
    requires Alike(t, t', t.path[c]) && Loses(t, k, c)
    ensures Loses(t', k, c)
  {
    var p := t.path[c];
    var k', c' :| Pair(t, k, c, k', c') && Dropping(t, k', c');
    UnderIsBelow(t, k, k');
    UnderAlike(t, t', p, k, k');
    UnderAlike(t, t', p, c, c');
    DroppingAlike(t, t', p, k', c');
    assert Pair(t', k, c, k', c');
  }

  // -------- The loop of merge_into again

  predicate Inside(t: Tree, c: Id, x: Id)
    requires t.path.Keys == t.items.Keys && c in t.items && x in t.items
  {
    t.items[c].folder && Below(t.path[c], t.path[x])
  }

  /** Below a child folder still to be dealt with nothing has changed; what came into keep came from the others. */
  ghost predicate PendingInv(t0: Tree, keep: Id, dup: Id, s: Loop)
  {
    && Valid(t0) && Valid(s.t) && s.t.path == t0.path && s.t.items.Keys == t0.items.Keys
    && (forall c, x :: c in s.pending && c in t0.items && x in t0.items && Inside(t0, c, x) ==>
          s.t.items[x] == t0.items[x])
    && Kids(s.t, keep) <= Kids(t0, keep) + (Kids(t0, dup) - s.pending)
  }

  /** What has been reported so far is what the children dealt with so far lose, and left in place. */
  ghost predicate CountInv(t0: Tree, keep: Id, dup: Id, pending: set<Id>, kept: bool, dropped: bool)
    requires Valid(t0)
  {
    && (dropped <==> LosesAmong(t0, keep, dup, Kids(t0, dup) - pending))
    && (kept <==> ClashAmong(t0, keep, dup, Kids(t0, dup) - pending))
  }

  ghost predicate LossInv(t0: Tree, keep: Id, dup: Id, s: Loop, kept: bool, dropped: bool)
  {
    && Valid(t0) && dup in t0.items && Tidy(t0, t0.path[dup])
    && PendingInv(t0, keep, dup, s) && CountInv(t0, keep, dup, s.pending, kept, dropped)
  }

  lemma LossStart(t: Tree, keep: Id, dup: Id, s: Loop)
    requires Valid(t) && dup in t.items && Tidy(t, t.path[dup]) && s.t == t && s.pending == Kids(t, dup)
    ensures LossInv(t, keep, dup, s, false, false)
  {
  }

  /** Of two child folders of one folder neither lies where the other's content does. */
  lemma OtherBranch(t: Tree, d: Id, a: Id, b: Id, x: Id)
    requires Valid(t) && d in t.items && a in Kids(t, d) && b in Kids(t, d) && a != b && x in t.items
    requires Tidy(t, t.path[d]) && t.items[a].folder && t.items[b].folder && Below(t.path[a], t.path[x])
    ensures !Below(t.path[b], t.path[x]) && x != b
  {
    ChildPath(t, d, a);
    ChildPath(t, d, b);
    assert Siblings(t, a, b) <==> t.items[a].name == t.items[b].name;
    NameOnTheWay(t.path[d], t.items[a].name, t.path[x]);
    if Below(t.path[b], t.path[x]) {
      NameOnTheWay(t.path[d], t.items[b].name, t.path[x]);
    }
  }

  lemma NameOnTheWay(p: Path, name: string, q: Path)
    requires Below(p + [name], q)
    ensures q[|p|] == name
  {
    assert q[..|p| + 1][|p|] == q[|p|];
  }

  /** What the steps below need to know of the tree `t` at some point of the loop. */
  ghost predicate Base(t0: Tree, t: Tree, keep: Id, dup: Id)
  {
    && Valid(t0) && Valid(t) && SameItems(t0, t) && keep in t0.items && dup in t0.items
    && t0.path[keep] == t0.path[dup] && Tidy(t0, t0.path[dup])
  }

  // A nested merge

  lemma NestedMatched(t0: Tree, keep: Id, dup: Id, s: Loop, k: Id, c: Id)
    requires Base(t0, s.t, keep, dup) && Kids(s.t, keep) <= Kids(t0, keep) + (Kids(t0, dup) - s.pending)
    requires c in s.pending && c in Kids(t0, dup) && k in Kids(s.t, keep)
    requires t0.items[c].folder && t0.items[k].folder && t0.items[k].name == t0.items[c].name
    ensures Matched(t0, keep, dup, k, c)
  {
    if k !in Kids(t0, keep) {
      ChildPath(t0, dup, c);
      assert Siblings(t0, c, k);
    }
  }

  lemma NestedAlike(t0: Tree, keep: Id, dup: Id, s: Loop, c: Id)
    requires Base(t0, s.t, keep, dup) && PendingInv(t0, keep, dup, s)
    requires c in s.pending && c in t0.items && t0.items[c].folder
    ensures Alike(t0, s.t, t0.path[c]) && Alike(s.t, t0, t0.path[c])
  {
    forall x | x in t0.items && Below(t0.path[c], t0.path[x]) ensures s.t.items[x] == t0.items[x] {
      assert Inside(t0, c, x);
    }
  }

  lemma NestedTidy(t0: Tree, t: Tree, keep: Id, dup: Id, c: Id)
    requires Base(t0, t, keep, dup) && c in t0.items && Alike(t0, t, t0.path[c]) && Below(t0.path[dup], t0.path[c])
    ensures Tidy(t, t.path[c])
  {
    forall x, y | x in t.items && y in t.items && Siblings(t, x, y) && Below(t.path[c], t.path[x])
      ensures x == y
    {
      assert Placed(t, x) && Placed(t, y);
      assert t.path[x] == t.path[y];
      BelowTransitive(t0.path[dup], t0.path[c], t0.path[x]);
      assert Siblings(t0, x, y);
    }
  }

  lemma NestedPending(t0: Tree, t1: Tree, keep: Id, dup: Id, s: Loop, c: Id)
    requires Base(t0, s.t, keep, dup) && PendingInv(t0, keep, dup, s) && c in s.t.items && Step(s.t, t1, c)
    requires c in s.pending && s.pending <= Kids(t0, dup) && t0.items[c].folder && !Child(s.t, keep, c)
    ensures PendingInv(t0, keep, dup, Nested(s, t1, c))
  {
    ChildPath(t0, dup, c);
    forall c', x | c' in s.pending - {c} && c' in t0.items && x in t0.items && Inside(t0, c', x)
      ensures t1.items[x] == t0.items[x]
    {
      OtherBranch(t0, dup, c', c, x);
    }
    NearbyUntouched(s.t, t1, c, keep);
    assert Kids(t1, keep) <= Kids(s.t, keep);
  }

  lemma OneMatch(t: Tree, keep: Id, dup: Id, k: Id, k': Id, c: Id)
    requires Valid(t) && keep in t.items && dup in t.items && t.path[keep] == t.path[dup] && Tidy(t, t.path[dup])
    requires Matched(t, keep, dup, k, c) && Matched(t, keep, dup, k', c)
    ensures k == k'
  {
    ChildPath(t, keep, k);
    assert Siblings(t, k, k');
  }

  lemma OneMoreLoses(t: Tree, keep: Id, dup: Id, done: set<Id>, k: Id, c: Id)
    requires Valid(t) && keep in t.items && dup in t.items && t.path[keep] == t.path[dup] && Tidy(t, t.path[dup])
    requires Matched(t, keep, dup, k, c)
    ensures LosesAmong(t, keep, dup, done + {c}) <==> LosesAmong(t, keep, dup, done) || Loses(t, k, c)
  {
    if LosesAmong(t, keep, dup, done + {c}) {
      var k', c' :| Matched(t, keep, dup, k', c') && c' in done + {c} && Loses(t, k', c');
      if c' == c { OneMatch(t, keep, dup, k, k', c); }
    }
  }

  lemma OneMoreClashes(t: Tree, keep: Id, dup: Id, done: set<Id>, k: Id, c: Id)
    requires Valid(t) && keep in t.items && dup in t.items && t.path[keep] == t.path[dup] && Tidy(t, t.path[dup])
    requires Matched(t, keep, dup, k, c)
    ensures ClashAmong(t, keep, dup, done + {c}) <==> ClashAmong(t, keep, dup, done) || DirectClash(t, k, c)
  {
    if ClashAmong(t, keep, dup, done + {c}) {
      var k', c' :| Matched(t, keep, dup, k', c') && c' in done + {c} && DirectClash(t, k', c');
      if c' == c { OneMatch(t, keep, dup, k, k', c); }
    }
  }

  lemma OneDone(all: set<Id>, pending: set<Id>, c: Id)
    requires c in all && c in pending
    ensures all - (pending - {c}) == all - pending + {c}
  {
  }

  lemma NestedCount(t0: Tree, keep: Id, dup: Id, pending: set<Id>, k: Id, c: Id, kept: bool, dropped: bool,
                    stays: bool, loses: bool)
    requires Valid(t0) && keep in t0.items && dup in t0.items && t0.path[keep] == t0.path[dup] && Tidy(t0, t0.path[dup])
    requires CountInv(t0, keep, dup, pending, kept, dropped) && c in pending && Matched(t0, keep, dup, k, c)
    requires (stays <==> DirectClash(t0, k, c)) && (loses <==> Loses(t0, k, c))
    ensures CountInv(t0, keep, dup, pending - {c}, kept || stays, dropped || loses)
  {
    OneMoreLoses(t0, keep, dup, Kids(t0, dup) - pending, k, c);
    OneMoreClashes(t0, keep, dup, Kids(t0, dup) - pending, k, c);
    OneDone(Kids(t0, dup), pending, c);
  }

  lemma SameVerdict(t0: Tree, t: Tree, k: Id, c: Id)
    requires Valid(t0) && Valid(t) && k in t0.items && c in t0.items && t0.path[k] == t0.path[c]
    requires Alike(t0, t, t0.path[c]) && Alike(t, t0, t0.path[c])
    ensures Loses(t, k, c) <==> Loses(t0, k, c)
    ensures DirectClash(t, k, c) <==> DirectClash(t0, k, c)
  {
    ClashAlike(t0, t, t0.path[c], k, c);
    if Loses(t0, k, c) { LosesAlike(t0, t, k, c); }
    if Loses(t, k, c) { LosesAlike(t, t0, k, c); }
  }

  lemma LossNested(t0: Tree, t1: Tree, keep: Id, dup: Id, s: Loop, k: Id, c: Id, kept: bool, dropped: bool,
                   stays: bool, loses: bool)
    requires Base(t0, s.t, keep, dup) && LossInv(t0, keep, dup, s, kept, dropped) && s.pending <= Kids(t0, dup)
    requires c in s.pending && c in s.t.items && t0.items[c].folder && !Child(s.t, keep, c)
    requires k in Kids(s.t, keep) && t0.items[k].folder && t0.items[k].name == t0.items[c].name
    requires Step(s.t, t1, c) && (stays <==> DirectClash(s.t, k, c)) && (loses <==> Loses(s.t, k, c))
    ensures LossInv(t0, keep, dup, Nested(s, t1, c), kept || stays, dropped || loses)
  {
    NestedMatched(t0, keep, dup, s, k, c);
    ChildPath(t0, keep, k);
    ChildPath(t0, dup, c);
    assert (stays <==> DirectClash(t0, k, c)) && (loses <==> Loses(t0, k, c)) by {
      NestedAlike(t0, keep, dup, s, c);
      SameVerdict(t0, s.t, k, c);
    }
    NestedPending(t0, t1, keep, dup, s, c);
    NestedCount(t0, keep, dup, s.pending, k, c, kept, dropped, stays, loses);
  }

  // A conflict, and a move

  lemma SameCount(t: Tree, keep: Id, dup: Id, pending: set<Id>, c: Id, kept: bool, dropped: bool)
    requires Valid(t) && c in pending && c in Kids(t, dup) && (forall k :: !Matched(t, keep, dup, k, c))
    requires CountInv(t, keep, dup, pending, kept, dropped)
    ensures CountInv(t, keep, dup, pending - {c}, kept, dropped)
  {
    OneDone(Kids(t, dup), pending, c);
  }

  lemma LossConflict(t0: Tree, keep: Id, dup: Id, s: Loop, c: Id, kept: bool, dropped: bool)
    requires LossInv(t0, keep, dup, s, kept, dropped) && c in s.pending && c in Kids(t0, dup) && !t0.items[c].folder
    ensures LossInv(t0, keep, dup, LeftBehind(s, c), kept, dropped)
  {
    SameCount(t0, keep, dup, s.pending, c, kept, dropped);
  }

  lemma NotMatched(t0: Tree, keep: Id, dup: Id, s: Loop, c: Id)
    requires Valid(t0) && c in t0.items && FolderNames(t0, Kids(t0, keep)) <= s.folders.Keys
    requires t0.items[c].folder ==> t0.items[c].name !in s.folders
    ensures forall k :: !Matched(t0, keep, dup, k, c)
  {
    forall k ensures !Matched(t0, keep, dup, k, c) {
      MatchedName(t0, keep, dup, k, c);
    }
  }

  lemma MatchedName(t: Tree, keep: Id, dup: Id, k: Id, c: Id)
    requires Valid(t)
    ensures Matched(t, keep, dup, k, c) ==> t.items[c].folder && t.items[c].name in FolderNames(t, Kids(t, keep))
  {
  }

  lemma MovePending(t0: Tree, keep: Id, dup: Id, s: Loop, c: Id)
    requires Base(t0, s.t, keep, dup) && PendingInv(t0, keep, dup, s) && s.pending <= Kids(t0, dup)
    requires c in s.pending && c in s.t.items && c != s.t.root && !s.t.items[c].trashed && Valid(Moved(s.t, c, keep))
    ensures PendingInv(t0, keep, dup, MovedOver(s, c, keep))
  {
    MovedKids(s.t, keep, c);
    ChildPath(t0, dup, c);
    forall o, x | o in s.pending - {c} && o in t0.items && x in t0.items && Inside(t0, o, x)
      ensures x != c
    {
      ChildPath(t0, dup, o);
    }
  }

  lemma LossMove(t0: Tree, keep: Id, dup: Id, s: Loop, c: Id, kept: bool, dropped: bool)
    requires Base(t0, s.t, keep, dup) && LossInv(t0, keep, dup, s, kept, dropped) && s.pending <= Kids(t0, dup)
    requires c in s.pending && c in s.t.items && c != s.t.root && !s.t.items[c].trashed && Valid(Moved(s.t, c, keep))
    requires FolderNames(t0, Kids(t0, keep)) <= s.folders.Keys && (t0.items[c].folder ==> t0.items[c].name !in s.folders)
    ensures LossInv(t0, keep, dup, MovedOver(s, c, keep), kept, dropped)
  {
    NotMatched(t0, keep, dup, s, c);
    MovePending(t0, keep, dup, s, c);
    SameCount(t0, keep, dup, s.pending, c, kept, dropped);
  }

  // The end of the call

  lemma LossEnd(t0: Tree, keep: Id, dup: Id, s: Loop, kept: bool, dropped: bool)
    requires LossInv(t0, keep, dup, s, kept, dropped) && s.pending == {}
    requires keep in t0.items && t0.path[keep] == t0.path[dup] && t0.items[keep].folder && t0.items[dup].folder
    ensures Loses(t0, keep, dup) <==> dropped || (!DirectClash(t0, keep, dup) && kept)
  {
    assert Kids(t0, dup) - {} == Kids(t0, dup);
    assert ClashAmong(t0, keep, dup, Kids(t0, dup)) <==>
           exists k, c :: Matched(t0, keep, dup, k, c) && DirectClash(t0, k, c);
    LosesUnrolled(t0, keep, dup);
  }

  // -------- The same, as merge_into calls upon it

  /** For the script as written (`counts` is false), on tidy folders. */
  ghost predicate LossAt(t0: Tree, keep: Id, dup: Id, counts: bool, s: Loop, kept: bool, dropped: bool)
  {
    && Valid(t0) && Valid(s.t) && dup in t0.items
    && (Tidy(t0, t0.path[dup]) && !counts ==> LossInv(t0, keep, dup, s, kept, dropped))
  }

  ghost predicate LossOk(t0: Tree, keep: Id, dup: Id, counts: bool, s: Loop, kept: bool, dropped: bool)
  {
    forall x {:trigger LossAt(t0, keep, dup, counts, x, kept, dropped)} :: x == s ==>
      LossAt(t0, keep, dup, counts, x, kept, dropped)
  }

  ghost predicate LossDone(t0: Tree, keep: Id, dup: Id, counts: bool, dropped: bool)
  {
    && Valid(t0) && dup in t0.items
    && (Tidy(t0, t0.path[dup]) && !counts ==> (dropped <==> Loses(t0, keep, dup)))
  }

  lemma OpenLoss(t0: Tree, keep: Id, dup: Id, counts: bool, s: Loop, kept: bool, dropped: bool)
    requires LossOk(t0, keep, dup, counts, s, kept, dropped)
    ensures LossAt(t0, keep, dup, counts, s, kept, dropped)
  {
  }

  lemma LossStarts(t: Tree, keep: Id, dup: Id, counts: bool, s: Loop)
    requires Valid(t) && dup in t.items && s.t == t && s.pending == Kids(t, dup)
    ensures LossOk(t, keep, dup, counts, s, false, false)
  {
    if Tidy(t, t.path[dup]) {
      LossStart(t, keep, dup, s);
    }
  }

  lemma BaseHolds(t0: Tree, keep: Id, dup: Id, cut: set<Id>, s: Loop)
    requires TreeOk(t0, keep, dup, cut, s) && ChildOk(t0, dup, s)
    ensures Valid(t0) && Valid(s.t) && SameItems(t0, s.t) && keep in t0.items && dup in t0.items && keep != dup
    ensures t0.path[keep] == t0.path[dup] && t0.items[keep].folder && t0.items[dup].folder && dup != t0.root
    ensures s.pending <= Kids(t0, dup)
    ensures Live(s.t, {}, keep) && Live(s.t, {}, dup)
  {
    OpenTree(t0, keep, dup, cut, s);
    OpenChild(t0, dup, s);
    LiveShrinksWithCut(s.t, {}, cut + s.settled, dup);
    LiveShrinksWithCut(s.t, {}, cut + s.settled, keep);
    assert Placed(t0, keep) && Placed(t0, dup);
  }

  lemma NestedFacts(t0: Tree, keep: Id, dup: Id, cut: set<Id>, s: Loop, k: Id, c: Id)
    requires TreeOk(t0, keep, dup, cut, s) && ChildOk(t0, dup, s) && TableOk(keep, s) && Valid(t0) && Valid(s.t)
    requires c in s.pending && c in s.t.items && s.t.items[c].folder
    requires s.t.items[c].name in s.folders && k == s.folders[s.t.items[c].name]
    ensures c in Kids(t0, dup) && t0.items[c].folder && !Child(s.t, keep, c) && Child(s.t, keep, k) && Child(s.t, dup, c)
    ensures k in t0.items && k in Kids(s.t, keep) && t0.items[k].folder && t0.items[k].name == t0.items[c].name
  {
    PendingChild(t0, keep, dup, cut, s, c);
    OpenTable(keep, s);
    assert keep != dup by { OpenTree(t0, keep, dup, cut, s); }
    assert Child(s.t, keep, k) && k in t0.items;
  }

  lemma LossAfterNested(t0: Tree, t1: Tree, keep: Id, dup: Id, cut: set<Id>, counts: bool, s: Loop, k: Id, c: Id,
                        kept: bool, dropped: bool, stays: bool, loses: bool)
    requires TreeOk(t0, keep, dup, cut, s) && ChildOk(t0, dup, s) && TableOk(keep, s) && Valid(s.t)
    requires LossOk(t0, keep, dup, counts, s, kept, dropped)
    requires c in s.pending && c in s.t.items && s.t.items[c].folder
    requires s.t.items[c].name in s.folders && k == s.folders[s.t.items[c].name]
    requires Step(s.t, t1, c) && (!counts ==> (stays <==> DirectClash(s.t, k, c))) && LossDone(s.t, k, c, counts, loses)
    ensures LossOk(t0, keep, dup, counts, Nested(s, t1, c), kept || stays, dropped || loses)
  {
    OpenLoss(t0, keep, dup, counts, s, kept, dropped);
    BaseHolds(t0, keep, dup, cut, s);
    if Tidy(t0, t0.path[dup]) && !counts {
      NestedFacts(t0, keep, dup, cut, s, k, c);
      assert Tidy(s.t, s.t.path[c]) by {
        ChildPath(t0, dup, c);
        NestedAlike(t0, keep, dup, s, c);
        NestedTidy(t0, s.t, keep, dup, c);
      }
      LossNested(t0, t1, keep, dup, s, k, c, kept, dropped, stays, loses);
    }
  }

  lemma LossAfterConflict(t0: Tree, keep: Id, dup: Id, cut: set<Id>, counts: bool, s: Loop, c: Id, kept: bool, dropped: bool)
    requires TreeOk(t0, keep, dup, cut, s) && ChildOk(t0, dup, s) && LossOk(t0, keep, dup, counts, s, kept, dropped)
    requires c in s.pending && c in s.t.items && !s.t.items[c].folder
    ensures LossOk(t0, keep, dup, counts, LeftBehind(s, c), kept, dropped)
  {
    OpenLoss(t0, keep, dup, counts, s, kept, dropped);
    PendingChild(t0, keep, dup, cut, s, c);
    if Tidy(t0, t0.path[dup]) && !counts {
      LossConflict(t0, keep, dup, s, c, kept, dropped);
    }
  }

  lemma LossAfterMove(t0: Tree, keep: Id, dup: Id, cut: set<Id>, counts: bool, s: Loop, c: Id, kept: bool, dropped: bool)
    requires TreeOk(t0, keep, dup, cut, s) && ChildOk(t0, dup, s) && OriginOk(t0, keep, dup, s)
    requires LossOk(t0, keep, dup, counts, s, kept, dropped) && c in s.pending && c in s.t.items
    requires Valid(Moved(s.t, c, keep)) && (s.t.items[c].folder ==> s.t.items[c].name !in s.folders)
    ensures LossOk(t0, keep, dup, counts, MovedOver(s, c, keep), kept, dropped)
  {
    OpenLoss(t0, keep, dup, counts, s, kept, dropped);
    PendingChild(t0, keep, dup, cut, s, c);
    BaseHolds(t0, keep, dup, cut, s);
    if Tidy(t0, t0.path[dup]) && !counts {
      OpenOrigin(t0, keep, dup, s);
      LossMove(t0, keep, dup, s, c, kept, dropped);
    }
  }

  lemma LossAtEnd(t0: Tree, keep: Id, dup: Id, cut: set<Id>, counts: bool, s: Loop, kept: bool, dropped: bool, all: bool)
    requires TreeOk(t0, keep, dup, cut, s) && ChildOk(t0, dup, s) && LossOk(t0, keep, dup, counts, s, kept, dropped)
    requires s.pending == {} && Valid(t0) && (s.leftBehind > 0) == DirectClash(t0, keep, dup)
    requires all == (dropped || (s.leftBehind == 0 && kept))
    ensures LossDone(t0, keep, dup, counts, all)
  {
    OpenLoss(t0, keep, dup, counts, s, kept, dropped);
    BaseHolds(t0, keep, dup, cut, s);
    if Tidy(t0, t0.path[dup]) && !counts {
      LossEnd(t0, keep, dup, s, kept, dropped);
    }
  }
}
