/**
 The shared drive as scripts/drive-merge-dups.py sees it: a flat table of items, each naming its
 parent. `Tree` adds the path of names of every item, and `Live` says which items can still be
 reached without passing a trashed folder.
 */
module DriveTree {

  type Id = nat
  type Path = seq<string>

  datatype Item = Item(name: string, folder: bool, created: int, parent: Id, trashed: bool)

  datatype Tree = Tree(items: map<Id, Item>, root: Id, path: map<Id, Path>)

  /** An item other than the root hangs under a folder, and its path extends the folder's by its name. */
  predicate Placed(t: Tree, x: Id)
    requires x in t.items && t.path.Keys == t.items.Keys
  {
    x == t.root ||
    (&& t.items[x].parent in t.items
     && t.items[t.items[x].parent].folder
     && t.path[x] == t.path[t.items[x].parent] + [t.items[x].name])
  }

  ghost predicate Valid(t: Tree)
  {
    && t.path.Keys == t.items.Keys
    && t.root in t.items && t.items[t.root].folder && t.path[t.root] == []
    && forall x {:trigger Placed(t, x)} :: x in t.items ==> Placed(t, x)
  }

  /** The root is reached from `x` without passing a trashed item or an item of `cut`. */
  ghost predicate Live(t: Tree, cut: set<Id>, x: Id)
    requires Valid(t) && x in t.items
    decreases |t.path[x]|
  {
    x == t.root || (Placed(t, x) && x !in cut && !t.items[x].trashed && Live(t, cut, t.items[x].parent))
  }

  ghost predicate LiveFile(t: Tree, cut: set<Id>, x: Id)
    requires Valid(t)
  {
    x in t.items && !t.items[x].folder && Live(t, cut, x)
  }

  ghost predicate LiveFolder(t: Tree, x: Id)
    requires Valid(t)
  {
    x in t.items && t.items[x].folder && Live(t, {}, x)
  }

  ghost function LivePaths(t: Tree, cut: set<Id>): set<Path>
    requires Valid(t)
  {
    set x | x in t.items && LiveFile(t, cut, x) :: t.path[x]
  }

  /** `q` continues `p` by at least one name. */
  predicate Below(p: Path, q: Path)
  {
    |p| < |q| && q[..|p|] == p
  }

  ghost predicate Child(t: Tree, folder: Id, x: Id)
    requires Valid(t)
  {
    x in t.items && x != t.root && t.items[x].parent == folder && !t.items[x].trashed && Placed(t, x)
  }

  /** Two live files in different places of the drive, or twins in one folder, with one path. */
  ghost predicate NoSharedPaths(t: Tree)
    requires Valid(t)
  {
    forall f, g :: LiveFile(t, {}, f) && LiveFile(t, {}, g) && t.path[f] == t.path[g] ==> f == g
  }

  /** Below path `p` no two live folders share a path: no folder has two same-name child folders. */
  ghost predicate UniqueFolders(t: Tree, p: Path)
    requires Valid(t)
  {
    forall x, y :: LiveFolder(t, x) && LiveFolder(t, y) && t.path[x] == t.path[y] && Below(p, t.path[x]) ==> x == y
  }

  /** Names, kinds and paths stay; only parents change, and nothing comes back from the trash. */
  ghost predicate SameItems(t: Tree, t': Tree)
  {
    && t'.root == t.root && t'.path == t.path && t'.items.Keys == t.items.Keys
    && forall x :: x in t.items ==>
         && t'.items[x].name == t.items[x].name
         && t'.items[x].folder == t.items[x].folder
         && t'.items[x].created == t.items[x].created
         && (t.items[x].trashed ==> t'.items[x].trashed)
  }

  /** Only items strictly below `d`'s path, and the trashed flag of `d` itself, differ. */
  ghost predicate Frame(t: Tree, t': Tree, d: Id)
    requires d in t.items && Valid(t)
  {
    && t'.items.Keys == t.items.Keys
    && t'.items[d].(trashed := t.items[d].trashed) == t.items[d]
    && forall x :: x in t.items && x != d && !Below(t.path[d], t.path[x]) ==> t'.items[x] == t.items[x]
  }

  /** Two files, or two folders, of one name meet in a folder only if they shared a folder before. */
  ghost predicate NoNewTwins(t: Tree, t': Tree)
    requires t'.items.Keys == t.items.Keys && t'.path == t.path && t.path.Keys == t.items.Keys
  {
    forall f, g :: f in t.items && g in t.items && t.items[f].folder == t.items[g].folder && f != g
                   && t.path[f] == t.path[g] && !t'.items[f].trashed && !t'.items[g].trashed
                   && t'.items[f].parent == t'.items[g].parent
                   ==> t.items[f].parent == t.items[g].parent
  }

  ghost predicate NothingRevived(t: Tree, t': Tree)
    requires Valid(t) && Valid(t') && SameItems(t, t')
  {
    forall x :: x in t.items && Live(t', {}, x) ==> Live(t, {}, x)
  }

  // -------- The path labelling is determined by the tree

  lemma {:induction false} PathsAreUnique(t: Tree, other: map<Id, Path>, x: Id)
    requires Valid(t) && Valid(t.(path := other)) && x in t.items
    ensures other[x] == t.path[x]
    decreases |t.path[x]|
  {
    assert Placed(t, x) && Placed(t.(path := other), x);
    if x != t.root {
      PathsAreUnique(t, other, t.items[x].parent);
    }
  }

  // -------- How liveness reacts to the two things the script does

  function Moved(t: Tree, c: Id, to: Id): Tree
    requires c in t.items
  {
    t.(items := t.items[c := t.items[c].(parent := to)])
  }

  function Trashed(t: Tree, d: Id): Tree
    requires d in t.items
  {
    t.(items := t.items[d := t.items[d].(trashed := true)])
  }

  lemma {:induction false} LiveShrinksWithCut(t: Tree, small: set<Id>, large: set<Id>, x: Id)
    requires Valid(t) && x in t.items && small <= large
    ensures Live(t, large, x) ==> Live(t, small, x)
    decreases |t.path[x]|
  {
    assert Placed(t, x);
    if x != t.root {
      LiveShrinksWithCut(t, small, large, t.items[x].parent);
    }
  }

  /** Cutting an item leaves everything no deeper than it, other than itself, as live as before. */
  lemma {:induction false} CutKeepsShallower(t: Tree, cut: set<Id>, c: Id, x: Id)
    requires Valid(t) && x in t.items && c in t.items && x != c && |t.path[x]| <= |t.path[c]|
    ensures Live(t, cut + {c}, x) == Live(t, cut, x)
    decreases |t.path[x]|
  {
    assert Placed(t, x);
    if x != t.root {
      CutKeepsShallower(t, cut, c, t.items[x].parent);
    }
  }

  /** A file has nothing below it, so cutting it costs only itself. */
  lemma {:induction false} CutFile(t: Tree, cut: set<Id>, c: Id, x: Id)
    requires Valid(t) && x in t.items && c in t.items && !t.items[c].folder && x != c
    ensures Live(t, cut, x) ==> Live(t, cut + {c}, x)
    decreases |t.path[x]|
  {
    assert Placed(t, x);
    if x != t.root && Live(t, cut, x) {
      CutFile(t, cut, c, t.items[x].parent);
    }
  }

  /** Once every child of `d` is cut, `d` itself may be cut as well. */
  lemma {:induction false} CutEmptied(t: Tree, cut: set<Id>, inner: set<Id>, d: Id, x: Id)
    requires Valid(t) && x in t.items && d in t.items && cut <= inner && x != d
    requires forall c :: Child(t, d, c) ==> c in inner
    ensures Live(t, inner, x) ==> Live(t, cut + {d}, x)
    decreases |t.path[x]|
  {
    assert Placed(t, x);
    if x != t.root && Live(t, inner, x) {
      assert Child(t, d, x) || t.items[x].parent != d;
      CutEmptied(t, cut, inner, d, t.items[x].parent);
    }
  }

  lemma TrashedValid(t: Tree, d: Id)
    requires Valid(t) && d in t.items
    ensures Valid(Trashed(t, d))
  {
    forall x {:trigger Placed(Trashed(t, d), x)} | x in t.items
      ensures Placed(Trashed(t, d), x)
    {
      assert Placed(t, x);
    }
  }

  lemma {:induction false} TrashIsCut(t: Tree, cut: set<Id>, d: Id, x: Id)
    requires Valid(t) && x in t.items && d in t.items && d != t.root && Valid(Trashed(t, d))
    ensures Live(Trashed(t, d), cut, x) == Live(t, cut + {d}, x)
    decreases |t.path[x]|
  {
    assert Placed(t, x);
    if x != t.root {
      assert Placed(Trashed(t, d), x);
      TrashIsCut(t, cut, d, t.items[x].parent);
    }
  }

  lemma MovedValid(t: Tree, c: Id, to: Id)
    requires Valid(t) && c in t.items && c != t.root && to in t.items && t.items[to].folder
    requires Placed(t, c) && t.path[to] == t.path[t.items[c].parent]
    ensures Valid(Moved(t, c, to))
  {
    forall x {:trigger Placed(Moved(t, c, to), x)} | x in t.items
      ensures Placed(Moved(t, c, to), x)
    {
      assert Placed(t, x);
    }
  }

  /** Moving between two live folders with one path keeps every path and every liveness. */
  lemma {:induction false} MoveKeepsLive(t: Tree, cut: set<Id>, c: Id, to: Id, x: Id)
    requires Valid(t) && x in t.items && c in t.items && c != t.root
    requires Placed(t, c)
    requires to in t.items && t.items[to].folder && t.path[to] == t.path[t.items[c].parent]
    requires Live(t, cut, to) && Live(t, cut, t.items[c].parent) && Valid(Moved(t, c, to))
    ensures Live(Moved(t, c, to), cut, x) == Live(t, cut, x)
    decreases |t.path[x]|
  {
    assert Placed(t, x) && Placed(Moved(t, c, to), x);
    if x == c {
      MoveKeepsLive(t, cut, c, to, to);
    } else if x != t.root {
      MoveKeepsLive(t, cut, c, to, t.items[x].parent);
    }
  }

  lemma {:induction false} FrameKeepsLive(t: Tree, t': Tree, d: Id, cut: set<Id>, x: Id)
    requires Valid(t) && Valid(t') && SameItems(t, t') && d in t.items && Frame(t, t', d)
    requires x in t.items && x != d && !Below(t.path[d], t.path[x])
    ensures Live(t', cut, x) == Live(t, cut, x)
    decreases |t.path[x]|
  {
    assert Placed(t, x) && Placed(t', x);
    if x != t.root {
      var p := t.items[x].parent;
      assert p != d;
      assert !Below(t.path[d], t.path[p]);
      FrameKeepsLive(t, t', d, cut, p);
    }
  }

  /** Every prefix of a live item's path is the path of a live item above it. */
  lemma {:induction false} LiveAncestor(t: Tree, x: Id, k: nat) returns (a: Id)
    requires Valid(t) && x in t.items && Live(t, {}, x) && k <= |t.path[x]|
    ensures a in t.items && Live(t, {}, a) && t.path[a] == t.path[x][..k]
    ensures k < |t.path[x]| ==> t.items[a].folder
    ensures k == |t.path[x]| ==> a == x
    decreases |t.path[x]|
  {
    assert Placed(t, x);
    if k == |t.path[x]| {
      a := x;
    } else {
      a := LiveAncestor(t, t.items[x].parent, k);
    }
  }
}
