/**
 The script itself: a drive that is changed item by item, `merge_into` and `walk` with their loops.
 */
module DriveScript {
  import opened DriveTree
  import opened DriveMerge
  import opened DriveReport
  import opened DriveCall
  import opened DrivePairs
  import opened DriveWalk

  class Drive {
    const root: Id
    // whether a nested merge that leaves its folder in place keeps the folder around it as well: in the
    // script it does not
    const counts: bool
    var items: map<Id, Item>
    // the path of names of every item; the script never changes one
    ghost const path: map<Id, Path>

    ghost function View(): Tree
      reads this
    {
      Tree(items, root, path)
    }

    constructor (items: map<Id, Item>, root: Id, ghost path: map<Id, Path>, counts: bool)
      requires Valid(Tree(items, root, path))
      ensures View() == Tree(items, root, path) && this.counts == counts
    {
      this.counts := counts;
      this.items := items;
      this.root := root;
      this.path := path;
    }

    /** The listing: what hangs under `folder` and is not trashed, in no particular order. */
    method Children(folder: Id) returns (kids: set<Id>)
      requires Valid(View())
      ensures kids == Kids(View(), folder)
    {
      kids := set x | x in items && x != root && items[x].parent == folder && !items[x].trashed;
      forall x | x in kids
        ensures Placed(View(), x)
      {
      }
    }

    /** Sorting by creation time comes down to taking an oldest item next. */
    method Oldest(ids: set<Id>) returns (c: Id)
      requires ids != {} && ids <= items.Keys
      ensures c in ids && forall x :: x in ids ==> items[c].created <= items[x].created
    {
      c :| c in ids;
      var rest := ids - {c};
      while rest != {}
        invariant rest <= ids && c in ids
        invariant forall x :: x in ids && x !in rest ==> items[c].created <= items[x].created
      {
        var x :| x in rest;
        if items[x].created < items[c].created {
          c := x;
        }
        rest := rest - {x};
      }
    }

    /** Name to folder; of several namesakes the one listed last wins. */
    method FolderTable(kids: set<Id>) returns (folders: map<string, Id>)
      requires kids <= items.Keys && Valid(View())
      ensures folders.Keys == FolderNames(View(), kids)
      ensures forall nm :: nm in folders ==> folders[nm] in kids && items[folders[nm]].folder
                                             && items[folders[nm]].name == nm
    {
      folders := map[];
      var rest := kids;
      while rest != {}
        invariant rest <= kids
        invariant folders.Keys == FolderNames(View(), kids - rest)
        invariant forall nm :: nm in folders ==> folders[nm] in kids && items[folders[nm]].folder
                                                 && items[folders[nm]].name == nm
      {
        var x :| x in rest;
        ghost var done := kids - rest;
        if items[x].folder {
          folders := folders[items[x].name := x];
        }
        rest := rest - {x};
        assert kids - rest == done + {x};
      }
      assert kids - rest == kids;
    }

    /** The tables of what `keep` holds, and the children of `dup`. */
    method Listings(keep: Id, dup: Id, ghost cut: set<Id>)
      returns (folders: map<string, Id>, files: set<string>, pending: set<Id>)
      requires Valid(View()) && Ready(View(), keep, dup, cut)
      ensures Going(View(), keep, dup, cut, counts, Loop(View(), {}, pending, folders, files, 0), false, NOTHING)
    {
      var keepKids := Children(keep);
      folders := FolderTable(keepKids);
      files := set x | x in keepKids && !items[x].folder :: items[x].name;
      assert files == FileNames(View(), Kids(View(), keep));
      pending := Children(dup);
      Starts(View(), keep, dup, cut, counts, folders, files);
    }

    /** `stays`: something was left behind in `dup`, which is not trashed; `r` is what was reported. */
    method MergeInto(keep: Id, dup: Id, ghost cut: set<Id>, ghost height: nat) returns (stays: bool, r: Report)
      requires Valid(View()) && Ready(View(), keep, dup, cut) && keep in path
      requires forall x :: x in path ==> |path[x]| <= height
      modifies this`items
      ensures Merges(old(View()), View(), keep, dup, cut, counts, stays, r)
      decreases height - |path[keep]|
    {
      ghost var t0 := View();
      var folders, files, pending := Listings(keep, dup, cut);
      var leftBehind, kept := 0, false;
      r := NOTHING;
      ghost var s := Loop(t0, {}, pending, folders, files, 0);
      while pending != {}
        invariant s == Loop(View(), s.settled, pending, folders, files, leftBehind)
        invariant Going(t0, keep, dup, cut, counts, s, kept, r)
        decreases pending
      {
        NextChild(t0, keep, dup, cut, counts, s, kept, r);
        var c := Oldest(pending);
        if items[c].folder && items[c].name in folders {
          NestedReady(t0, keep, dup, cut, counts, s, kept, r, c);
          var k := folders[items[c].name];
          var stayed, q := MergeInto(k, c, cut + s.settled, height);
          GoesNested(t0, View(), keep, dup, cut, counts, s, kept, r, k, c, stayed, q);
          s := Nested(s, View(), c);
          kept := kept || stayed;
          r := And(r, q);
        } else if !items[c].folder && items[c].name in files {
          GoesConflict(t0, keep, dup, cut, counts, s, kept, r, c);
          s := LeftBehind(s, c);
          leftBehind := leftBehind + 1;
          r := And(r, Report(true, false));
        } else {
          GoesMove(t0, keep, dup, cut, counts, s, kept, r, c);
          s := MovedOver(s, c, keep);
          items := items[c := items[c].(parent := keep)];
          if items[c].folder {
            folders := folders[items[c].name := c];
          } else {
            files := files + {items[c].name};
          }
        }
        pending := pending - {c};
      }
      if leftBehind > 0 || (counts && kept) {
        EndsStaying(t0, keep, dup, cut, counts, s, kept, r);
        return true, r;
      }
      EndsTrashed(t0, keep, dup, cut, counts, s, kept, r);
      items := items[dup := items[dup].(trashed := true)];
      return false, And(r, Report(false, kept));
    }

    /** The folders listed under one name, and the oldest of them. */
    method PickKept(ghost t0: Tree, folder: Id, ghost todo: set<string>, kids: set<Id>, nm: string, ghost r: Report)
      returns (group: set<Id>, keep: Id)
      requires Valid(t0) && kids == Kids(t0, folder) && Walking(t0, View(), folder, todo, counts, r) && nm in todo
      ensures group == Group(t0, folder, nm) && keep in group
      ensures forall x :: x in group ==> x in items && keep in items && items[keep].created <= items[x].created
      ensures Grouping(View(), View(), folder, group, nm, keep, group - {keep}, counts, NOTHING)
    {
      GroupListing(t0, View(), folder, todo, nm, counts, r);
      group := set x | x in kids && items[x].folder && items[x].name == nm;
      keep := Oldest(group);
      GroupStart(t0, View(), folder, todo, nm, keep, counts, r);
    }

    /** One group: every other copy is merged into the oldest, oldest first. */
    method MergeGroup(folder: Id, group: set<Id>, ghost nm: string, keep: Id, ghost height: nat) returns (r: Report)
      requires Valid(View()) && Grouping(View(), View(), folder, group, nm, keep, group - {keep}, counts, NOTHING)
      requires forall x :: x in path ==> |path[x]| <= height
      modifies this`items
      ensures Grouping(old(View()), View(), folder, group, nm, keep, {}, counts, r)
    {
      ghost var ta := View();
      var dups := group - {keep};
      r := NOTHING;
      while dups != {}
        invariant Grouping(ta, View(), folder, group, nm, keep, dups, counts, r)
        decreases dups
      {
        ghost var t := View();
        GroupReady(ta, t, folder, group, nm, keep, dups, counts, r);
        var dup := Oldest(dups);
        GroupValid(ta, t, folder, group, nm, keep, dups, counts, r);
        var stayed, q := MergeInto(keep, dup, {}, height);
        GroupMerged(ta, t, View(), folder, group, nm, keep, dups, dup, counts, r, stayed, q);
        dups := dups - {dup};
        r := And(r, q);
      }
    }

    method Walk(folder: Id, ghost height: nat) returns (r: Report)
      requires Valid(View()) && folder in items && folder in path && items[folder].folder && Live(View(), {}, folder)
      requires forall x :: x in path ==> |path[x]| <= height
      modifies this`items
      ensures Walks(old(View()), View(), folder, counts, r)
      decreases height - |path[folder]|
    {
      ghost var t0 := View();
      var kids := Children(folder);
      var todo := set x | x in kids && items[x].folder :: items[x].name;
      assert todo == FolderNames(t0, Kids(t0, folder));
      r := NOTHING;
      WalkStart(t0, folder, counts);
      while todo != {}
        invariant Walking(t0, View(), folder, todo, counts, r)
        decreases todo
      {
        ghost var ta := View();
        var nm :| nm in todo;
        var group, keep := PickKept(t0, folder, todo, kids, nm, r);
        GroupReady(ta, ta, folder, group, nm, keep, group - {keep}, counts, NOTHING);
        GroupValid(ta, ta, folder, group, nm, keep, group - {keep}, counts, NOTHING);
        var q := MergeGroup(folder, group, nm, keep, height);
        ghost var tb := View();
        GroupKeepLive(ta, tb, folder, group, nm, keep, counts, q);
        var w := Walk(keep, height);
        GroupDone(t0, ta, tb, View(), folder, todo, nm, keep, counts, r, q, w);
        todo := todo - {nm};
        r := And(And(r, q), w);
      }
      WalkEnd(t0, View(), folder, counts, r);
    }
  }
}
