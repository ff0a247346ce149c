/**
 `insertManyBySeq` of apps/web/src/lib/session-chat.ts: the client keeps the events it has received in the
 order of their numbers, each number once. So what it shows does not depend on duplicates or order.
 */
module Transcript {
  import opened Replay
  import opened ReplayTheorems

  function Numbers(list: seq<Event>): set<nat> {
    set i | 0 <= i < |list| :: list[i].number
  }

  /** The items whose number is neither in `seen` nor that of an earlier item. */
  function Unseen(seen: set<nat>, items: seq<Event>): seq<Event> {
    if items == [] then []
    else
      var rest, last := items[..|items| - 1], items[|items| - 1];
      Unseen(seen, rest) + if last.number in seen || last.number in Numbers(rest) then [] else [last]
  }

  function Place(list: seq<Event>, e: Event): seq<Event> {
    if list == [] || list[|list| - 1].number <= e.number then list + [e]
    else Place(list[..|list| - 1], e) + [list[|list| - 1]]
  }

  function Sorted(list: seq<Event>): seq<Event> {
    if list == [] then [] else Place(Sorted(list[..|list| - 1]), list[|list| - 1])
  }

  function Insert(list: seq<Event>, items: seq<Event>): seq<Event> {
    var unseen := Unseen(Numbers(list), items);
    if unseen == [] then list else Sorted(list + unseen)
  }

  method InsertManyBySeq(list: seq<Event>, items: seq<Event>) returns (r: seq<Event>)
    ensures r == Insert(list, items)
  {
    if items == [] {
      return list;
    }
    var seen := Numbers(list);
    var unseen: seq<Event> := [];
    assert items[..0] == [];
    for i := 0 to |items|
      invariant unseen == Unseen(Numbers(list), items[..i])
      invariant seen == Numbers(list) + Numbers(items[..i])
    {
      assert items[..i + 1] == items[..i] + [items[i]];
      NumbersOne(items[..i], items[i]);
      if items[i].number in seen {
        assert items[..i + 1][..i] == items[..i];
        continue;
      }
      seen := seen + {items[i].number};
      unseen := unseen + [items[i]];
      assert items[..i + 1][..i] == items[..i];
    }
    assert items[..|items|] == items;
    if unseen == [] {
      return list;
    }
    return Sorted(list + unseen);
  }

  lemma NumbersOne(list: seq<Event>, e: Event)
    ensures Numbers(list + [e]) == Numbers(list) + {e.number}
  {
    assert (list + [e])[|list|] == e;
    assert forall i :: 0 <= i < |list| ==> (list + [e])[i] == list[i];
  }

  // -------- Sorting

  ghost predicate Distinct(list: seq<Event>) {
    forall i, j :: 0 <= i < j < |list| ==> list[i].number != list[j].number
  }

  lemma {:induction false} PlaceMembers(list: seq<Event>, e: Event)
    ensures forall x :: x in Place(list, e) <==> x in list || x == e
  {
    if list != [] && list[|list| - 1].number > e.number {
      PlaceMembers(list[..|list| - 1], e);
      assert list == list[..|list| - 1] + [list[|list| - 1]];
    }
  }

  lemma {:induction false} PlaceKeepsOrder(list: seq<Event>, e: Event)
    requires Log(list) && e.number >= 1 && forall x :: x in list ==> x.number != e.number
    ensures Log(Place(list, e))
  {
    if list != [] {
      var rest, last := list[..|list| - 1], list[|list| - 1];
      if last.number <= e.number {
        assert forall i :: 0 <= i < |list| ==> list[i].number <= last.number;
      } else {
        PlaceKeepsOrder(rest, e);
        PlaceMembers(rest, e);
        assert list == rest + [last];
        LogBoth(rest, [last]);
        LogBoth(Place(rest, e), [last]);
      }
    }
  }

  lemma {:induction false} SortedMembers(list: seq<Event>, x: Event)
    ensures x in Sorted(list) <==> x in list
  {
    if list != [] {
      var rest, last := list[..|list| - 1], list[|list| - 1];
      assert list == rest + [last];
      SortedMembers(rest, x);
      PlaceMembers(Sorted(rest), last);
    }
  }

  lemma {:induction false} SortedIs(list: seq<Event>)
    requires Distinct(list) && forall x :: x in list ==> x.number >= 1
    ensures Log(Sorted(list)) && forall x :: x in Sorted(list) <==> x in list
  {
    forall x ensures x in Sorted(list) <==> x in list {
      SortedMembers(list, x);
    }
    if list != [] {
      var rest, last := list[..|list| - 1], list[|list| - 1];
      SortedIs(rest);
      PlaceKeepsOrder(Sorted(rest), last);
    }
  }

  // -------- Inserting

  lemma {:induction false} UnseenFrom(seen: set<nat>, items: seq<Event>, x: Event)
    ensures x in Unseen(seen, items) ==> x in items && x.number !in seen
  {
    if items != [] {
      UnseenFrom(seen, items[..|items| - 1], x);
    }
  }

  lemma {:induction false} UnseenDistinct(seen: set<nat>, items: seq<Event>)
    ensures Distinct(Unseen(seen, items))
  {
    if items != [] {
      var rest := items[..|items| - 1];
      UnseenDistinct(seen, rest);
      forall i | 0 <= i < |Unseen(seen, rest)| ensures Unseen(seen, rest)[i].number in Numbers(rest) {
        UnseenFrom(seen, rest, Unseen(seen, rest)[i]);
      }
    }
  }

  lemma {:induction false} UnseenCovers(seen: set<nat>, items: seq<Event>, n: nat)
    requires n in Numbers(items) && n !in seen
    ensures n in Numbers(Unseen(seen, items))
  {
    var rest, last := items[..|items| - 1], items[|items| - 1];
    assert items == rest + [last];
    NumbersOne(rest, last);
    NumbersOne(Unseen(seen, rest), last);
    assert Unseen(seen, items) == if last.number in seen || last.number in Numbers(rest) then Unseen(seen, rest)
                                  else Unseen(seen, rest) + [last];
    if n in Numbers(rest) {
      UnseenCovers(seen, rest, n);
    }
  }

  /** No two events of one number. */
  ghost predicate Agree(list: seq<Event>) {
    && (forall x :: x in list ==> x.number >= 1)
    && (forall x, y :: x in list && y in list && x.number == y.number ==> x == y)
  }

  /** Inserting keeps the order and adds what was not there. */
  lemma InsertKeeps(list: seq<Event>, items: seq<Event>)
    requires Log(list) && Agree(list + items)
    ensures Log(Insert(list, items))
    ensures forall x :: x in Insert(list, items) <==> x in list || x in items
  {
    var unseen := Unseen(Numbers(list), items);
    assert forall x :: x in list + unseen ==> x in list + items by {
      forall x | x in unseen ensures x in items {
        UnseenFrom(Numbers(list), items, x);
      }
    }
    forall x ensures x in list || x in unseen <==> x in list || x in items {
      UnseenFrom(Numbers(list), items, x);
      if x in items {
        HeldOrUnseen(list, items, x);
      }
    }
    if unseen != [] {
      UnseenDistinct(Numbers(list), items);
      forall i, j | 0 <= i < |list| && 0 <= j < |unseen| ensures list[i].number != unseen[j].number {
        UnseenFrom(Numbers(list), items, unseen[j]);
      }
      SortedIs(list + unseen);
    }
  }

  lemma HeldOrUnseen(list: seq<Event>, items: seq<Event>, x: Event)
    requires Agree(list + items) && x in items
    ensures x in list || x in Unseen(Numbers(list), items)
  {
    var unseen := Unseen(Numbers(list), items);
    assert x in list + items;
    if x.number in Numbers(list) {
      var j :| 0 <= j < |list| && list[j].number == x.number;
      assert list[j] in list + items;
    } else {
      var i :| 0 <= i < |items| && items[i] == x;
      UnseenCovers(Numbers(list), items, x.number);
      var j :| 0 <= j < |unseen| && unseen[j].number == x.number;
      UnseenFrom(Numbers(list), items, unseen[j]);
      assert unseen[j] in list + items;
    }
  }

  /** The list after the frames of a subscription, each frame inserted as one batch. */
  function Shown(list: seq<Event>, frames: seq<Frame>): seq<Event> {
    if frames == [] then list else Insert(Shown(list, frames[..|frames| - 1]), EventsOf(frames[|frames| - 1]))
  }

  lemma {:induction false} ShownIs(list: seq<Event>, frames: seq<Frame>)
    requires Log(list) && Agree(list + Delivered(frames))
    ensures Log(Shown(list, frames))
    ensures forall x :: x in Shown(list, frames) <==> x in list || x in Delivered(frames)
  {
    if frames != [] {
      var rest, last := frames[..|frames| - 1], frames[|frames| - 1];
      assert forall x :: x in Delivered(frames) <==> x in Delivered(rest) || x in EventsOf(last);
      assert forall x :: x in list + Delivered(rest) ==> x in list + Delivered(frames);
      ShownIs(list, rest);
      assert forall x :: x in Shown(list, rest) + EventsOf(last) ==> x in list + Delivered(frames);
      InsertKeeps(Shown(list, rest), EventsOf(last));
    }
  }

  lemma LogAgrees(log: seq<Event>, list: seq<Event>)
    requires Log(log) && forall x :: x in list ==> x in log
    ensures Agree(list)
  {
  }

  lemma ReceivedFromLog(log: seq<Event>, out: set<Event>, a: nat, before: seq<Happening>, between: seq<Happening>,
                        later: seq<Happening>, e: Event)
    requires Runs(log, out, before, between, later)
    requires e in Received(log, a, before, between, later)
    ensures e in log + Appended(before + between + later)
  {
    RunFacts(log, out, before, between, later);
    AboveMembers(log + Appended(before), a, e);
    AboveMembers(Published(before + between), Latest(log + Appended(before), a), e);
    var seen, all := log + Appended(before), log + Appended(before + between + later);
    assert forall i :: 0 <= i < |seen| ==> seen[i] == all[i];
    assert e in Published(before + between) ==> e in Published(before + between + later);
  }

  /**
   However publications fall around the replay: a client that has a list of events of this log, in order,
   still has one after the frames. Above its start it then shows exactly what it had, what the last page
   could read, and what has been published; at or below it, what it had and what was published late.
   */
  lemma ShownIsExact(list: seq<Event>, log: seq<Event>, out: set<Event>, a: nat, before: seq<Happening>,
                     between: seq<Happening>, later: seq<Happening>, frames: seq<Frame>)
    requires Runs(log, out, before, between, later)
    requires Log(list) && forall e :: e in list ==> e in log + Appended(before + between + later)
    requires Delivered(frames) == Received(log, a, before, between, later)
    ensures Log(Shown(list, frames))
    ensures forall e: Event :: e.number > a ==>
              (e in Shown(list, frames) <==>
                 e in list || e in log + Appended(before) || e in Published(before + between + later))
    ensures forall e: Event :: e.number <= a ==> (e in Shown(list, frames) <==> e in list || e in Published(later))
  {
    var all := log + Appended(before + between + later);
    RunFacts(log, out, before, between, later);
    forall e | e in list + Delivered(frames) ensures e in all {
      if e in Delivered(frames) {
        ReceivedFromLog(log, out, a, before, between, later, e);
      }
    }
    LogAgrees(all, list + Delivered(frames));
    ShownIs(list, frames);
    forall e: Event
      ensures e.number > a ==>
                (e in Delivered(frames) <==> e in log + Appended(before) || e in Published(before + between + later))
      ensures e.number <= a ==> (e in Delivered(frames) <==> e in Published(later))
    {
      DeliveredIs(log, out, a, before, between, later, e);
    }
  }

  lemma DeliveredIs(log: seq<Event>, out: set<Event>, a: nat, before: seq<Happening>, between: seq<Happening>,
                    later: seq<Happening>, e: Event)
    requires Runs(log, out, before, between, later)
    ensures var got := Received(log, a, before, between, later);
      e in got <==> if e.number > a then e in log + Appended(before) || e in Published(before + between + later)
                    else e in Published(later)
  {
    var got := Received(log, a, before, between, later);
    if e.number <= a {
      UnaskedIff(log, out, a, before, between, later, e);
    } else {
      ReceivedParts(log, out, a, before, between, later, e);
      assert e in got <==> Times(got, e) > 0;
      RunFacts(log, out, before, between, later);
      if e in log + Appended(before) || e in Published(before + between + later) {
        ReceivedOnceOrTwice(log, out, a, before, between, later, e);
      }
    }
  }
}
