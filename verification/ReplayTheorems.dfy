/**
 What a subscriber is promised, for every history of appends and publications around its replay: nothing
 above its start is lost, and an event comes twice exactly if the last page held it already and it was
 published only after the flush.
 */
module ReplayTheorems {
  import opened Replay

  /**
   Numbers grow as events are appended; an event is published after it was appended, and once. `out` are
   the events published before the subscription.
   */
  ghost predicate History(log: seq<Event>, out: set<Event>, hs: seq<Happening>) {
    if hs == [] then
      Log(log) && forall e :: e in out ==> e in log
    else
      var rest := hs[..|hs| - 1];
      && History(log, out, rest)
      && match hs[|hs| - 1]
         case Appends(e) => e.number >= 1 && forall x :: x in log + Appended(rest) ==> x.number < e.number
         case Publishes(e) => e in log + Appended(rest) && e !in out && e !in Published(rest)
         case _ => true
  }

  ghost function Times(s: seq<Event>, e: Event): nat {
    multiset(s)[e]
  }

  // -------- What a history keeps

  lemma {:induction false} HistoryNumbers(log: seq<Event>, out: set<Event>, hs: seq<Happening>)
    requires History(log, out, hs)
    ensures Log(log + Appended(hs))
  {
    if hs == [] {
      assert log + Appended(hs) == log;
    } else {
      var rest, h := hs[..|hs| - 1], hs[|hs| - 1];
      HistoryNumbers(log, out, rest);
      assert hs == rest + [h];
      HappenOne(rest, h);
      Assoc(log, Appended(rest), AppendedBy(h));
      if h.Appends? {
        forall i | 0 <= i < |log + Appended(rest)|
          ensures (log + Appended(rest))[i].number < h.event.number
        {
          assert (log + Appended(rest))[i] in log + Appended(rest);
        }
      } else {
        assert log + Appended(hs) == log + Appended(rest);
      }
    }
  }

  /** What is published has been appended, was not published before, and is published once. */
  lemma {:induction false} HistoryPublishes(log: seq<Event>, out: set<Event>, hs: seq<Happening>, e: Event)
    requires History(log, out, hs)
    ensures e in Published(hs) ==> e in log + Appended(hs) && e !in out
    ensures Times(Published(hs), e) == if e in Published(hs) then 1 else 0
  {
    if hs != [] {
      var rest, h := hs[..|hs| - 1], hs[|hs| - 1];
      HistoryPublishes(log, out, rest, e);
      assert hs == rest + [h];
      HappenOne(rest, h);
    }
  }

  lemma {:induction false} HistoryBefore(log: seq<Event>, out: set<Event>, x: seq<Happening>, y: seq<Happening>)
    requires History(log, out, x + y)
    ensures History(log, out, x)
  {
    if y == [] {
      assert x + y == x;
    } else {
      assert (x + y)[..|x + y| - 1] == x + y[..|y| - 1];
      HistoryBefore(log, out, x, y[..|y| - 1]);
    }
  }

  // -------- Counting

  lemma TimesBoth(x: seq<Event>, y: seq<Event>, e: Event)
    ensures Times(x + y, e) == Times(x, e) + Times(y, e)
  {
  }

  lemma {:induction false} TimesAbove(s: seq<Event>, a: nat, e: Event)
    ensures Times(Above(s, a), e) == if e.number > a then Times(s, e) else 0
  {
    if s != [] {
      var rest, last := s[..|s| - 1], s[|s| - 1];
      TimesAbove(rest, a, e);
      assert s == rest + [last];
      TimesBoth(rest, [last], e);
      TimesBoth(Above(rest, a), if last.number > a then [last] else [], e);
    }
  }

  lemma {:induction false} TimesInLog(log: seq<Event>, e: Event)
    requires Log(log)
    ensures Times(log, e) == if e in log then 1 else 0
  {
    if log != [] {
      var rest, last := log[..|log| - 1], log[|log| - 1];
      TimesInLog(rest, e);
      assert log == rest + [last];
    }
  }

  /** Of the events above `a`, those the last page read are numbered up to `Latest`, the others above it. */
  lemma SeenOrAbove(log: seq<Event>, seen: seq<Event>, a: nat, e: Event)
    requires Log(log) && seen <= log && e in log && e.number > a
    ensures e in seen <==> e.number <= Latest(seen, a)
  {
    var i :| 0 <= i < |log| && log[i] == e;
    if i < |seen| {
      assert seen[i] == e;
      assert seen[|seen| - 1] == log[|seen| - 1];
    } else {
      assert forall k :: 0 <= k < |seen| ==> seen[k] == log[k];
    }
  }

  lemma LatestIsAbove(seen: seq<Event>, a: nat)
    ensures Latest(seen, a) >= a
  {
  }

  ghost predicate Runs(log: seq<Event>, out: set<Event>, before: seq<Happening>, between: seq<Happening>,
                       later: seq<Happening>)
  {
    History(log, out, before + between + later)
  }

  lemma RunFacts(log: seq<Event>, out: set<Event>, before: seq<Happening>, between: seq<Happening>,
                 later: seq<Happening>)
    requires Runs(log, out, before, between, later)
    ensures var all, seen := log + Appended(before + between + later), log + Appended(before);
      Log(all) && seen <= all && Log(seen)
    ensures Published(before + between + later) == Published(before + between) + Published(later)
    ensures forall e :: e in Published(before + between + later) ==> e in log + Appended(before + between + later)
  {
    HistoryNumbers(log, out, before + between + later);
    Assoc(before, between, later);
    HappenBoth(before + between, later);
    HappenBoth(before, between + later);
    Assoc(log, Appended(before), Appended(between + later));
    PrefixIsLog(log + Appended(before), log + Appended(before + between + later));
    forall e | e in Published(before + between + later)
      ensures e in log + Appended(before + between + later)
    {
      HistoryPublishes(log, out, before + between + later, e);
    }
  }

  lemma ReceivedParts(log: seq<Event>, out: set<Event>, a: nat, before: seq<Happening>, between: seq<Happening>,
                      later: seq<Happening>, e: Event)
    requires Runs(log, out, before, between, later)
    ensures var seen := log + Appended(before);
      Times(Received(log, a, before, between, later), e) ==
        (if e in seen && e.number > a then 1 else 0)
        + (if e in Published(before + between) && e.number > Latest(seen, a) then 1 else 0)
        + (if e in Published(later) then 1 else 0)
    ensures !(e in Published(before + between) && e in Published(later))
  {
    var seen := log + Appended(before);
    RunFacts(log, out, before, between, later);
    TimesBoth(Above(seen, a) + Above(Published(before + between), Latest(seen, a)), Published(later), e);
    TimesBoth(Above(seen, a), Above(Published(before + between), Latest(seen, a)), e);
    TimesAbove(seen, a, e);
    TimesAbove(Published(before + between), Latest(seen, a), e);
    TimesInLog(seen, e);
    HistoryPublishes(log, out, before + between + later, e);
    TimesBoth(Published(before + between), Published(later), e);
  }

  /**
   Nothing above the start is lost: an event that the last page could read, or that is published at any
   time, is received. It comes twice exactly if it is both in the last page's log and published after the
   flush, otherwise once.
   */
  lemma ReceivedOnceOrTwice(log: seq<Event>, out: set<Event>, a: nat, before: seq<Happening>, between: seq<Happening>,
                            later: seq<Happening>, e: Event)
    requires Runs(log, out, before, between, later) && e.number > a
    requires e in log + Appended(before) || e in Published(before + between + later)
    ensures Times(Received(log, a, before, between, later), e) ==
            if e in log + Appended(before) && e in Published(later) then 2 else 1
  {
    RunFacts(log, out, before, between, later);
    ReceivedParts(log, out, a, before, between, later, e);
    SeenOrAbove(log + Appended(before + between + later), log + Appended(before), a, e);
  }

  /** An event at or below the start is received exactly if it is published after the flush. */
  lemma UnaskedIff(log: seq<Event>, out: set<Event>, a: nat, before: seq<Happening>, between: seq<Happening>,
                   later: seq<Happening>, e: Event)
    requires Runs(log, out, before, between, later) && e.number <= a
    ensures e in Received(log, a, before, between, later) <==> e in Published(later)
  {
    ReceivedParts(log, out, a, before, between, later, e);
    LatestIsAbove(log + Appended(before), a);
  }

  /** After the flush only events are published that are above the start and were not in the last page's log. */
  ghost predicate NoneLate(log: seq<Event>, a: nat, before: seq<Happening>, later: seq<Happening>) {
    forall e :: e in Published(later) ==> e.number > a && e !in log + Appended(before)
  }

  /** One event: it is there unasked, or twice, exactly if it is late. */
  lemma LateIff(log: seq<Event>, out: set<Event>, a: nat, before: seq<Happening>, between: seq<Happening>,
                later: seq<Happening>, e: Event)
    requires Runs(log, out, before, between, later)
    ensures var got := Received(log, a, before, between, later);
      e in got && !(e.number > a && Times(got, e) == 1) <==>
        e in Published(later) && !(e.number > a && e !in log + Appended(before))
  {
    var got := Received(log, a, before, between, later);
    if e.number <= a {
      UnaskedIff(log, out, a, before, between, later, e);
    } else {
      assert e in got <==> Times(got, e) > 0;
      ReceivedParts(log, out, a, before, between, later, e);
      RunFacts(log, out, before, between, later);
      if e in log + Appended(before) || e in Published(before + between + later) {
        ReceivedOnceOrTwice(log, out, a, before, between, later, e);
      }
    }
  }

  /** A subscriber receives nothing but events above its start, each once, exactly if none is late. */
  lemma EachOnceIff(log: seq<Event>, out: set<Event>, a: nat, before: seq<Happening>, between: seq<Happening>,
                    later: seq<Happening>)
    requires Runs(log, out, before, between, later)
    ensures var got := Received(log, a, before, between, later);
      (forall e :: e in got ==> e.number > a && Times(got, e) == 1) <==> NoneLate(log, a, before, later)
  {
    forall e
      ensures var got := Received(log, a, before, between, later);
        e in got && !(e.number > a && Times(got, e) == 1) <==>
          e in Published(later) && !(e.number > a && e !in log + Appended(before))
    {
      LateIff(log, out, a, before, between, later, e);
    }
  }

  // -------- Order

  lemma LogBoth(x: seq<Event>, y: seq<Event>)
    ensures Log(x + y) <==> Log(x) && Log(y) && forall p, q :: p in x && q in y ==> p.number < q.number
  {
    if Log(x + y) {
      forall i | 0 <= i < |x| ensures x[i] == (x + y)[i] {}
      forall i | 0 <= i < |y| ensures y[i] == (x + y)[|x| + i] {}
    }
    if Log(x) && Log(y) && forall p, q :: p in x && q in y ==> p.number < q.number {
      forall i, j | 0 <= i < j < |x + y|
        ensures (x + y)[i].number < (x + y)[j].number
      {
        if i < |x| <= j {
          assert x[i] in x && y[j - |x|] in y;
        }
      }
    }
  }

  lemma TimesOnceInLog(s: seq<Event>)
    requires Log(s)
    ensures forall e :: e in s ==> Times(s, e) == 1
  {
    forall e | e in s ensures Times(s, e) == 1 {
      TimesInLog(s, e);
    }
  }

  /**
   Where events are published in the order in which they were appended, a subscriber receives strictly
   increasing numbers above its start exactly if none is late.
   */
  lemma InOrderIff(log: seq<Event>, out: set<Event>, a: nat, before: seq<Happening>, between: seq<Happening>,
                   later: seq<Happening>)
    requires Runs(log, out, before, between, later) && Log(Published(before + between + later))
    ensures var got := Received(log, a, before, between, later);
      (Log(got) && forall e :: e in got ==> e.number > a) <==> NoneLate(log, a, before, later)
  {
    var got := Received(log, a, before, between, later);
    EachOnceIff(log, out, a, before, between, later);
    if Log(got) {
      TimesOnceInLog(got);
    }
    if NoneLate(log, a, before, later) {
      ReceivedInOrder(log, out, a, before, between, later);
    }
  }

  lemma ReceivedInOrder(log: seq<Event>, out: set<Event>, a: nat, before: seq<Happening>, between: seq<Happening>,
                        later: seq<Happening>)
    requires Runs(log, out, before, between, later) && Log(Published(before + between + later))
    requires NoneLate(log, a, before, later)
    ensures Log(Received(log, a, before, between, later))
  {
    var seen, all := log + Appended(before), log + Appended(before + between + later);
    var p, q, last := Published(before + between), Published(later), Latest(seen, a);
    RunFacts(log, out, before, between, later);
    LogBoth(p, q);
    AboveExact(seen, a);
    AboveExact(p, last);
    forall e, f | e in Above(seen, a) && (f in Above(p, last) || f in q)
      ensures e.number < f.number
    {
      SeenIsCovered(all, seen, a, e);
      if f in q {
        assert f in p + q;
        SeenOrAbove(all, seen, a, f);
      }
    }
    LogBoth(Above(seen, a), Above(p, last));
    LogBoth(Above(seen, a) + Above(p, last), q);
  }

  lemma SeenIsCovered(all: seq<Event>, seen: seq<Event>, a: nat, e: Event)
    requires Log(all) && seen <= all && e in seen && e.number > a
    ensures e.number <= Latest(seen, a)
  {
    var i :| 0 <= i < |seen| && seen[i] == e;
    assert all[i] == e;
    SeenOrAbove(all, seen, a, e);
  }

  /** An event appended before the last page is read and published after the flush arrives twice. */
  lemma DuplicateRun(e: Event)
    requires e.number == 1
    ensures Runs([], {}, [Appends(e)], [], [Publishes(e)])
    ensures Received([], 0, [Appends(e)], [], [Publishes(e)]) == [e, e]
  {
    var none: seq<Happening> := [];
    HappenOne([], Appends(e));
    HappenOne([], Publishes(e));
    HappenOne([Appends(e)], Publishes(e));
    assert [] + [Appends(e)] == [Appends(e)] && [] + [Publishes(e)] == [Publishes(e)];
    assert [Appends(e)] + none == [Appends(e)];
    var hs := [Appends(e)] + none + [Publishes(e)];
    assert hs[..1] == [Appends(e)] && hs[1] == Publishes(e) && hs[..1][..0] == [];
    assert History([], {}, hs[..1]);
    AboveOne(e, 0);
  }
}
