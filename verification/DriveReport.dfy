/**
 What a run of scripts/drive-merge-dups.py tells about itself, and what that says about the files: the
 report of a run that follows another is the two together.
 */
module DriveReport {
  import opened DriveTree
  import opened DriveMerge

  /**
   `conflict`: a file was left in place because its name was taken. `dropped`: a folder was trashed
   although a folder in it, merged into its namesake before, had been left in place.
   */
  datatype Report = Report(conflict: bool, dropped: bool)

  const NOTHING := Report(false, false)

  function And(r: Report, q: Report): Report {
    Report(r.conflict || q.conflict, r.dropped || q.dropped)
  }

  /** A drop comes after a conflict, and never where every folder left in place counts. */
  predicate Fair(counts: bool, r: Report) {
    r.dropped ==> r.conflict && !counts
  }

  /** Every live file is still live. */
  ghost predicate KeepsFiles(t: Tree, t': Tree)
    requires Valid(t) && Valid(t')
  {
    forall x :: LiveFile(t, {}, x) ==> LiveFile(t', {}, x)
  }

  /** The two do not hang under one folder, or one of them is trashed. */
  predicate Apart(t: Tree, f: Id, g: Id)
    requires f in t.items && g in t.items
  {
    t.items[f].trashed || t.items[g].trashed || t.items[f].parent != t.items[g].parent
  }

  /** Two files, live before and with one path, that have not met in one folder. */
  ghost predicate Clashed(t: Tree, t': Tree)
    requires Valid(t) && Valid(t')
  {
    exists f, g :: LiveFile(t, {}, f) && LiveFile(t, {}, g) && f != g && t.path[f] == t.path[g]
                   && f in t'.items && g in t'.items && Apart(t', f, g)
  }

  /** What every report is worth. */
  ghost predicate Accounts(t: Tree, t': Tree, r: Report)
  {
    && Valid(t) && Valid(t')
    && (KeepsFiles(t, t') <==> !r.dropped)
    && (r.conflict ==> Clashed(t, t'))
  }

  /** `Accounts` and what it is composed along, folded. */
  ghost predicate Ran(t: Tree, t': Tree, r: Report)
  {
    forall x {:trigger RanTo(t, x, r)} :: x == t' ==> RanTo(t, x, r)
  }

  ghost predicate RanTo(t: Tree, t': Tree, r: Report)
  {
    && Accounts(t, t', r) && SameItems(t, t') && NoNewTwins(t, t') && NothingRevived(t, t')
  }

  lemma OpenRan(t: Tree, t': Tree, r: Report)
    requires Ran(t, t', r)
    ensures RanTo(t, t', r)
  {
  }

  lemma KeepsInTurn(t0: Tree, t: Tree, t1: Tree)
    requires Valid(t0) && Valid(t) && Valid(t1)
    requires SameItems(t0, t) && SameItems(t, t1) && NothingRevived(t0, t) && NothingRevived(t, t1)
    ensures KeepsFiles(t0, t1) <==> KeepsFiles(t0, t) && KeepsFiles(t, t1)
  {
    if KeepsFiles(t0, t1) {
      forall x | LiveFile(t0, {}, x) ensures LiveFile(t, {}, x) {
        assert LiveFile(t1, {}, x);
      }
      forall x | LiveFile(t, {}, x) ensures LiveFile(t1, {}, x) {
        assert LiveFile(t0, {}, x);
      }
    }
  }

  lemma ClashedStays(t0: Tree, t: Tree, t1: Tree)
    requires Valid(t0) && Valid(t) && Valid(t1) && SameItems(t0, t) && SameItems(t, t1)
    requires NoNewTwins(t, t1) && Clashed(t0, t)
    ensures Clashed(t0, t1)
  {
    var f, g :| LiveFile(t0, {}, f) && LiveFile(t0, {}, g) && f != g && t0.path[f] == t0.path[g]
                && f in t.items && g in t.items && Apart(t, f, g);
    assert Apart(t1, f, g);
  }

  lemma ClashedBefore(t0: Tree, t: Tree, t1: Tree)
    requires Valid(t0) && Valid(t) && Valid(t1) && SameItems(t0, t) && NothingRevived(t0, t) && Clashed(t, t1)
    ensures Clashed(t0, t1)
  {
    var f, g :| LiveFile(t, {}, f) && LiveFile(t, {}, g) && f != g && t.path[f] == t.path[g]
                && f in t1.items && g in t1.items && Apart(t1, f, g);
    assert LiveFile(t0, {}, f) && LiveFile(t0, {}, g);
  }

  lemma RanInTurn(t0: Tree, t: Tree, t1: Tree, r: Report, q: Report)
    requires Ran(t0, t, r) && Ran(t, t1, q)
    ensures Ran(t0, t1, And(r, q))
  {
    OpenRan(t0, t, r);
    OpenRan(t, t1, q);
    assert KeepsFiles(t0, t1) <==> KeepsFiles(t0, t) && KeepsFiles(t, t1) by { KeepsInTurn(t0, t, t1); }
    if r.conflict { ClashedStays(t0, t, t1); }
    if q.conflict { ClashedBefore(t0, t, t1); }
    RevivedTransitive(t0, t, t1);
    TwinsTransitive(t0, t, t1);
  }

  lemma RanNowhere(t: Tree)
    requires Valid(t)
    ensures Ran(t, t, NOTHING)
  {
  }

  /** A file left behind next to its namesake in `keep` is a conflict. */
  lemma ConflictRan(t: Tree, keep: Id, dup: Id, c: Id, g: Id)
    requires Valid(t) && keep in t.items && dup in t.items && keep != dup && t.path[keep] == t.path[dup]
    requires Live(t, {}, keep) && Live(t, {}, dup) && Child(t, dup, c) && Child(t, keep, g)
    requires !t.items[c].folder && !t.items[g].folder && t.items[c].name == t.items[g].name
    ensures Ran(t, t, Report(true, false))
  {
    assert LiveFile(t, {}, c) && LiveFile(t, {}, g) && Apart(t, c, g);
  }

  // -------- What is inside a folder

  /** `x` is `a` or lies below it, with nothing trashed between. */
  ghost predicate Under(t: Tree, a: Id, x: Id)
    requires Valid(t) && x in t.items
    decreases |t.path[x]|
  {
    x == a || (x != t.root && Placed(t, x) && !t.items[x].trashed && Under(t, a, t.items[x].parent))
  }

  ghost predicate HasFile(t: Tree, a: Id)
    requires Valid(t)
  {
    exists f :: f in t.items && !t.items[f].folder && f != a && Under(t, a, f)
  }

  lemma {:induction false} UnderIsBelow(t: Tree, a: Id, x: Id)
    requires Valid(t) && a in t.items && x in t.items && Under(t, a, x)
    ensures x == a || Below(t.path[a], t.path[x])
    decreases |t.path[x]|
  {
    if x != a {
      UnderIsBelow(t, a, t.items[x].parent);
    }
  }

  lemma {:induction false} UnderTransitive(t: Tree, a: Id, b: Id, x: Id)
    requires Valid(t) && b in t.items && x in t.items && Under(t, a, b) && Under(t, b, x)
    ensures Under(t, a, x)
    decreases |t.path[x]|
  {
    if x != b {
      UnderTransitive(t, a, b, t.items[x].parent);
    }
  }

  /** At one depth an item lies in one folder only. */
  lemma {:induction false} UnderOnce(t: Tree, a: Id, b: Id, x: Id)
    requires Valid(t) && a in t.items && b in t.items && x in t.items && Under(t, a, x) && Under(t, b, x)
    requires |t.path[a]| == |t.path[b]|
    ensures a == b
    decreases |t.path[x]|
  {
    UnderIsBelow(t, a, x);
    UnderIsBelow(t, b, x);
    if x != a && x != b {
      UnderOnce(t, a, b, t.items[x].parent);
    }
  }

  lemma {:induction false} UnderLive(t: Tree, a: Id, x: Id)
    requires Valid(t) && a in t.items && x in t.items && Under(t, a, x) && Live(t, {}, a)
    ensures Live(t, {}, x)
    decreases |t.path[x]|
  {
    if x != a {
      UnderLive(t, a, t.items[x].parent);
    }
  }

  lemma {:induction false} UnderCut(t: Tree, a: Id, x: Id)
    requires Valid(t) && a in t.items && a != t.root && x in t.items && Under(t, a, x)
    ensures !Live(t, {a}, x)
    decreases |t.path[x]|
  {
    UnderIsBelow(t, a, x);
    if x != a {
      UnderCut(t, a, t.items[x].parent);
    }
  }

  // -------- Trashing a folder

  /** Trashing an empty folder loses nothing, trashing one with a file in it loses that file. */
  lemma TrashRan(t: Tree, dup: Id, full: bool)
    requires Valid(t) && dup in t.items && dup != t.root && t.items[dup].folder && Live(t, {}, dup)
    requires if full then HasFile(t, dup) else forall c :: !Child(t, dup, c)
    ensures Ran(t, Trashed(t, dup), Report(false, full))
  {
    TrashedSame(t, dup);
    if full {
      TrashLosesFile(t, dup);
    } else {
      EmptyTrash(t, dup);
    }
  }

  lemma EmptyTrash(t: Tree, dup: Id)
    requires Valid(t) && dup in t.items && dup != t.root && t.items[dup].folder && Valid(Trashed(t, dup))
    requires forall c :: !Child(t, dup, c)
    ensures KeepsFiles(t, Trashed(t, dup))
  {
    forall x | LiveFile(t, {}, x) ensures LiveFile(Trashed(t, dup), {}, x) {
      CutEmptied(t, {}, {}, dup, x);
      TrashIsCut(t, {}, dup, x);
    }
  }

  lemma TrashLosesFile(t: Tree, dup: Id)
    requires Valid(t) && dup in t.items && dup != t.root && Live(t, {}, dup) && HasFile(t, dup) && Valid(Trashed(t, dup))
    ensures !KeepsFiles(t, Trashed(t, dup))
  {
    var f :| f in t.items && !t.items[f].folder && f != dup && Under(t, dup, f);
    UnderLive(t, dup, f);
    UnderCut(t, dup, f);
    TrashIsCut(t, {}, dup, f);
    assert {} + {dup} == {dup};
    assert LiveFile(t, {}, f) && !LiveFile(Trashed(t, dup), {}, f);
  }
}
