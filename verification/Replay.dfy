/**
 `handleSubscribe` of apps/server/api/sessions-ws.ts: subscribe first, buffer what is published,
 page through the persisted log, then flush the buffer with a sequence filter. The runtime appends
 an event and publishes it some awaits later (apps/server/domain/runner/session-runtime.ts); whatever
 happens around an `await` of the replay is the `schedule`.
 */
module Replay {
  import opened Wrappers

  const PAGE_SIZE: nat := 200

  datatype Event = Event(number: nat, payload: string)

  /** The runtime appends an event to the log; it publishes an event, a delta that is never persisted, or a rename. */
  datatype Happening = Appends(event: Event) | Publishes(event: Event) | Delta(text: string) | SessionChanged

  datatype Frame = Page(events: seq<Event>) | Single(event: Event) | DeltaFrame(text: string)

  /** Sequence numbers start at 1 and only grow. */
  ghost predicate Log(log: seq<Event>) {
    && (forall i :: 0 <= i < |log| ==> log[i].number >= 1)
    && (forall i, j :: 0 <= i < j < |log| ==> log[i].number < log[j].number)
  }

  /** The events numbered above `a`, in the order of the log. */
  function Above(log: seq<Event>, a: nat): seq<Event> {
    if log == [] then []
    else
      var e := log[|log| - 1];
      Above(log[..|log| - 1], a) + (if e.number > a then [e] else [])
  }

  function EventsOf(f: Frame): seq<Event> {
    match f
    case Page(events) => events
    case Single(e) => [e]
    case DeltaFrame(_) => []
  }

  /** The events a client has received, and the deltas. */
  function Delivered(frames: seq<Frame>): seq<Event> {
    if frames == [] then [] else Delivered(frames[..|frames| - 1]) + EventsOf(frames[|frames| - 1])
  }

  function Deltas(frames: seq<Frame>): seq<string> {
    if frames == [] then []
    else
      Deltas(frames[..|frames| - 1]) +
      match frames[|frames| - 1]
      case DeltaFrame(text) => [text]
      case _ => []
  }

  function AppendedBy(h: Happening): seq<Event> {
    if h.Appends? then [h.event] else []
  }

  function PublishedBy(h: Happening): seq<Event> {
    if h.Publishes? then [h.event] else []
  }

  function TextOf(h: Happening): seq<string> {
    if h.Delta? then [h.text] else []
  }

  function HeardOf(h: Happening): seq<Happening> {
    if h.Publishes? || h.Delta? then [h] else []
  }

  function Each<T>(f: Happening -> seq<T>, hs: seq<Happening>): seq<T> {
    if hs == [] then [] else Each(f, hs[..|hs| - 1]) + f(hs[|hs| - 1])
  }

  function Appended(hs: seq<Happening>): seq<Event> {
    Each(AppendedBy, hs)
  }

  function Published(hs: seq<Happening>): seq<Event> {
    Each(PublishedBy, hs)
  }

  function Texts(hs: seq<Happening>): seq<string> {
    Each(TextOf, hs)
  }

  /** What the listener hears of it. */
  function Listened(hs: seq<Happening>): seq<Happening> {
    Each(HeardOf, hs)
  }

  /** A listener passes on all it hears, apart from events that a replay has covered up to `last`. */
  predicate Goes(h: Happening, last: Option<nat>) {
    h.Delta? || (h.Publishes? && (last.Some? ==> h.event.number > last.value))
  }

  function FrameOf(h: Happening): Frame
    requires h.Delta? || h.Publishes?
  {
    if h.Publishes? then Single(h.event) else DeltaFrame(h.text)
  }

  function FramesFor(h: Happening, last: Option<nat>): seq<Frame> {
    if Goes(h, last) then [FrameOf(h)] else []
  }

  /** The frames for `hs`, events and deltas in the order in which they came. */
  function Kept(hs: seq<Happening>, last: Option<nat>): seq<Frame> {
    if hs == [] then []
    else Kept(hs[..|hs| - 1], last) + FramesFor(hs[|hs| - 1], last)
  }

  /** The number up to which a replay of `seen` from above `a` has come. */
  function Latest(seen: seq<Event>, a: nat): nat {
    if seen == [] || seen[|seen| - 1].number <= a then a else seen[|seen| - 1].number
  }

  /**
   What a subscriber that asked for the events above `a` is sent: those of the log as the last page read
   it, what was published while it was buffering and is not among them, and all that is published later.
   `before` happens up to that read, `between` up to the flush, `later` behind it.
   */
  function Received(log: seq<Event>, a: nat, before: seq<Happening>, between: seq<Happening>,
                    later: seq<Happening>): seq<Event>
  {
    var seen := log + Appended(before);
    Above(seen, a) + Above(Published(before + between), Latest(seen, a)) + Published(later)
  }

  // -------- Laws of the projections

  lemma {:induction false} AboveConcat(x: seq<Event>, y: seq<Event>, a: nat)
    ensures Above(x + y, a) == Above(x, a) + Above(y, a)
  {
    if y == [] {
      assert x + y == x;
    } else {
      AboveConcat(x, y[..|y| - 1], a);
      assert (x + y)[..|x + y| - 1] == x + y[..|y| - 1];
    }
  }

  lemma AboveOne(e: Event, a: nat)
    ensures Above([e], a) == if e.number > a then [e] else []
  {
    assert [e][..0] == [];
  }

  lemma {:induction false} AboveElement(log: seq<Event>, a: nat, i: nat) returns (j: nat)
    requires i < |Above(log, a)|
    ensures j < |log| && log[j] == Above(log, a)[i] && log[j].number > a
  {
    var rest := log[..|log| - 1];
    if i < |Above(rest, a)| {
      j := AboveElement(rest, a, i);
    } else {
      j := |log| - 1;
    }
  }

  /** In a log, what lies above the last event of a page is what the page has left out. */
  lemma {:induction false} AbovePage(log: seq<Event>, a: nat, n: nat)
    requires Log(log) && 1 <= n <= |Above(log, a)|
    ensures a < Above(log, a)[n - 1].number
    ensures Above(log, Above(log, a)[n - 1].number) == Above(log, a)[n..]
  {
    var e, rest := log[|log| - 1], log[..|log| - 1];
    var last := Above(log, a)[n - 1];
    var j := AboveElement(log, a, n - 1);
    if n <= |Above(rest, a)| {
      AbovePage(rest, a, n);
      var k := AboveElement(rest, a, n - 1);
      assert log[k].number < e.number;
    } else {
      assert last == e;
      NoneAbove(rest, e.number);
    }
  }

  lemma {:induction false} NoneAbove(log: seq<Event>, a: nat)
    requires forall i :: 0 <= i < |log| ==> log[i].number <= a
    ensures Above(log, a) == []
  {
    if log != [] {
      NoneAbove(log[..|log| - 1], a);
    }
  }

  lemma {:induction false} AllAbove(log: seq<Event>, a: nat)
    requires forall i :: 0 <= i < |log| ==> log[i].number > a
    ensures Above(log, a) == log
  {
    if log != [] {
      AllAbove(log[..|log| - 1], a);
    }
  }

  lemma {:induction false} AboveMembers(log: seq<Event>, a: nat, e: Event)
    ensures e in Above(log, a) <==> e in log && e.number > a
  {
    if log != [] {
      AboveMembers(log[..|log| - 1], a, e);
      assert log == log[..|log| - 1] + [log[|log| - 1]];
    }
  }

  lemma {:induction false} AboveIncreases(log: seq<Event>, a: nat)
    requires Log(log)
    ensures Log(Above(log, a))
  {
    if log != [] {
      var rest, last := log[..|log| - 1], log[|log| - 1];
      AboveIncreases(rest, a);
      forall i | 0 <= i < |Above(rest, a)|
        ensures Above(rest, a)[i].number < last.number
      {
        var j := AboveElement(rest, a, i);
        assert log[j] == rest[j];
      }
    }
  }

  /** What lies above `a`: exactly the events of the log numbered above it, in increasing order. */
  lemma AboveExact(log: seq<Event>, a: nat)
    requires Log(log)
    ensures forall e :: e in Above(log, a) <==> e in log && e.number > a
    ensures Log(Above(log, a))
  {
    forall e
      ensures e in Above(log, a) <==> e in log && e.number > a
    {
      AboveMembers(log, a, e);
    }
    AboveIncreases(log, a);
  }

  lemma SendOne(frames: seq<Frame>, f: Frame)
    ensures Delivered(frames + [f]) == Delivered(frames) + EventsOf(f)
    ensures Deltas(frames + [f]) == Deltas(frames) + match f { case DeltaFrame(text) => [text] case _ => [] }
  {
    assert (frames + [f])[..|frames|] == frames;
  }

  lemma EachOne<T>(f: Happening -> seq<T>, hs: seq<Happening>, h: Happening)
    ensures Each(f, hs + [h]) == Each(f, hs) + f(h)
  {
    assert (hs + [h])[..|hs|] == hs;
  }

  lemma {:induction false} EachConcat<T>(f: Happening -> seq<T>, x: seq<Happening>, y: seq<Happening>)
    ensures Each(f, x + y) == Each(f, x) + Each(f, y)
  {
    if y == [] {
      assert x + y == x;
    } else {
      var y', h := y[..|y| - 1], y[|y| - 1];
      EachConcat(f, x, y');
      assert x + y == (x + y') + [h];
      EachOne(f, x + y', h);
      Assoc(Each(f, x), Each(f, y'), f(h));
    }
  }

  lemma KeptOne(hs: seq<Happening>, h: Happening, last: Option<nat>)
    ensures Kept(hs + [h], last) == Kept(hs, last) + FramesFor(h, last)
  {
    assert (hs + [h])[..|hs|] == hs;
  }

  lemma {:induction false} KeptListened(hs: seq<Happening>, last: Option<nat>)
    ensures Kept(Listened(hs), last) == Kept(hs, last)
  {
    if hs != [] {
      var rest, h := hs[..|hs| - 1], hs[|hs| - 1];
      KeptListened(rest, last);
      if h.Publishes? || h.Delta? {
        KeptOne(Listened(rest), h, last);
      } else {
        assert Listened(hs) == Listened(rest);
      }
    }
  }

  /** The events among the frames are those above `last`, the deltas all there are. */
  lemma {:induction false} KeptParts(hs: seq<Happening>, last: Option<nat>)
    ensures Delivered(Kept(hs, last)) == if last.Some? then Above(Published(hs), last.value) else Published(hs)
    ensures Deltas(Kept(hs, last)) == Texts(hs)
  {
    if hs != [] {
      var rest, h := hs[..|hs| - 1], hs[|hs| - 1];
      KeptParts(rest, last);
      assert hs == rest + [h];
      HappenOne(rest, h);
      if last.Some? {
        AboveConcat(Published(rest), PublishedBy(h), last.value);
        if h.Publishes? { AboveOne(h.event, last.value); }
      }
      if Goes(h, last) {
        SendOne(Kept(rest, last), FrameOf(h));
      } else {
        assert Kept(hs, last) == Kept(rest, last);
      }
    }
  }

  /**
   No more and no less, and nothing overtakes: the frames are those of exactly the happenings that go, an event
   or a delta each, in the order in which these happened.
   */
  lemma {:induction false} KeptExactly(hs: seq<Happening>, last: Option<nat>) returns (at: seq<nat>)
    ensures |at| == |Kept(hs, last)| && forall i, j :: 0 <= i < j < |at| ==> at[i] < at[j]
    ensures forall j :: 0 <= j < |at| ==>
              at[j] < |hs| && Goes(hs[at[j]], last) && Kept(hs, last)[j] == FrameOf(hs[at[j]])
    ensures forall i :: 0 <= i < |hs| && Goes(hs[i], last) ==> i in at
  {
    at := [];
    if hs != [] {
      var n := |hs| - 1;
      at := KeptExactly(hs[..n], last);
      if Goes(hs[n], last) {
        var before := at;
        at := at + [n];
        forall i | 0 <= i < |hs| && Goes(hs[i], last) ensures i in at {
          assert i < n ==> hs[..n][i] == hs[i] && i in before;
        }
      }
    }
  }

  lemma {:induction false} SentBoth(x: seq<Frame>, y: seq<Frame>)
    ensures Delivered(x + y) == Delivered(x) + Delivered(y)
    ensures Deltas(x + y) == Deltas(x) + Deltas(y)
  {
    if y == [] {
      assert x + y == x;
    } else {
      var y', f := y[..|y| - 1], y[|y| - 1];
      SentBoth(x, y');
      assert x + y == (x + y') + [f];
      SendOne(x + y', f);
      Assoc(Delivered(x), Delivered(y'), EventsOf(f));
      Assoc(Deltas(x), Deltas(y'), match f { case DeltaFrame(text) => [text] case _ => [] });
    }
  }

  lemma HappenOne(hs: seq<Happening>, h: Happening)
    ensures Appended(hs + [h]) == Appended(hs) + AppendedBy(h)
    ensures Published(hs + [h]) == Published(hs) + PublishedBy(h)
    ensures Texts(hs + [h]) == Texts(hs) + TextOf(h)
    ensures Listened(hs + [h]) == Listened(hs) + HeardOf(h)
  {
    EachOne(HeardOf, hs, h);
    EachOne(AppendedBy, hs, h);
    EachOne(PublishedBy, hs, h);
    EachOne(TextOf, hs, h);
  }

  lemma HappenBoth(x: seq<Happening>, y: seq<Happening>)
    ensures Appended(x + y) == Appended(x) + Appended(y)
    ensures Published(x + y) == Published(x) + Published(y)
    ensures Texts(x + y) == Texts(x) + Texts(y)
    ensures Listened(x + y) == Listened(x) + Listened(y)
  {
    EachConcat(HeardOf, x, y);
    EachConcat(AppendedBy, x, y);
    EachConcat(PublishedBy, x, y);
    EachConcat(TextOf, x, y);
  }

  lemma TakeOne(hs: seq<Happening>, i: nat)
    requires i < |hs|
    ensures Appended(hs[..i + 1]) == Appended(hs[..i]) + AppendedBy(hs[i])
    ensures Listened(hs[..i + 1]) == Listened(hs[..i]) + HeardOf(hs[i])
  {
    assert hs[..i + 1] == hs[..i] + [hs[i]];
    HappenOne(hs[..i], hs[i]);
  }

  /** Events appended later lie above every earlier number, so they lie above both or neither. */
  lemma LaterEvents(log: seq<Event>, more: seq<Event>, a: nat, last: nat)
    requires Log(log + more) && (last == a || (last > a && exists e :: e in log && e.number == last))
    ensures Above(log, last) + Above(more, last) == Above(log + more, last)
    ensures Above(log + more, a) == Above(log, a) + Above(more, last)
  {
    AboveConcat(log, more, last);
    AboveConcat(log, more, a);
    if last != a {
      var k :| 0 <= k < |log| && log[k].number == last;
      assert log[k] == (log + more)[k];
      forall i | 0 <= i < |more|
        ensures more[i].number > last
      {
        assert more[i] == (log + more)[|log| + i];
      }
      AllAbove(more, last);
      AllAbove(more, a);
    }
  }

  lemma Assoc<T>(a: seq<T>, b: seq<T>, c: seq<T>)
    ensures a + (b + c) == a + b + c
  {
  }

  lemma NothingBefore<T>(x: seq<T>)
    ensures [] + x == x
  {
  }

  /** `hs` has happened: the log has grown by what was appended, the buffer by what the listener heard. */
  ghost predicate Fed(log0: seq<Event>, buffer0: seq<Happening>, log: seq<Event>, buffer: seq<Happening>,
                      hs: seq<Happening>)
  {
    log == log0 + Appended(hs) && buffer == buffer0 + Listened(hs)
  }

  lemma FedOne(log0: seq<Event>, buffer0: seq<Happening>, log1: seq<Event>, buffer1: seq<Happening>,
               log: seq<Event>, buffer: seq<Happening>, hs: seq<Happening>, i: nat)
    requires i < |hs| && Fed(log0, buffer0, log1, buffer1, hs[..i])
    requires log == log1 + AppendedBy(hs[i]) && buffer == buffer1 + HeardOf(hs[i])
    ensures Fed(log0, buffer0, log, buffer, hs[..i + 1])
  {
    TakeOne(hs, i);
    Assoc(log0, Appended(hs[..i]), AppendedBy(hs[i]));
    Assoc(buffer0, Listened(hs[..i]), HeardOf(hs[i]));
  }

  lemma FedBoth(log0: seq<Event>, buffer0: seq<Happening>, log1: seq<Event>, buffer1: seq<Happening>,
                log: seq<Event>, buffer: seq<Happening>, x: seq<Happening>, y: seq<Happening>)
    requires Fed(log0, buffer0, log1, buffer1, x) && Fed(log1, buffer1, log, buffer, y)
    ensures Fed(log0, buffer0, log, buffer, x + y)
  {
    HappenBoth(x, y);
    Assoc(log0, Appended(x), Appended(y));
    Assoc(buffer0, Listened(x), Listened(y));
  }

  predicate Buffered(hs: seq<Happening>) {
    forall i :: 0 <= i < |hs| ==> hs[i].Publishes? || hs[i].Delta?
  }

  lemma FlushOne(sent0: seq<Frame>, sent: seq<Frame>, hs: seq<Happening>, i: nat, last: Option<nat>)
    requires i < |hs| && sent == sent0 + Kept(hs[..i], last)
    ensures sent + FramesFor(hs[i], last) == sent0 + Kept(hs[..i + 1], last)
  {
    assert hs[..i + 1] == hs[..i] + [hs[i]];
    KeptOne(hs[..i], hs[i], last);
    Assoc(sent0, Kept(hs[..i], last), FramesFor(hs[i], last));
  }

  /** While live, `hs` has happened: all that the listener heard has been sent. */
  ghost predicate Followed(log0: seq<Event>, sent0: seq<Frame>, log: seq<Event>, sent: seq<Frame>, hs: seq<Happening>) {
    log == log0 + Appended(hs) && sent == sent0 + Kept(hs, None)
  }

  lemma FollowOne(log0: seq<Event>, sent0: seq<Frame>, log: seq<Event>, sent: seq<Frame>, hs: seq<Happening>, i: nat)
    requires i < |hs| && Followed(log0, sent0, log, sent, hs[..i])
    ensures Followed(log0, sent0, log + AppendedBy(hs[i]), sent + FramesFor(hs[i], None), hs[..i + 1])
  {
    TakeOne(hs, i);
    Assoc(log0, Appended(hs[..i]), AppendedBy(hs[i]));
    FlushOne(sent0, sent, hs, i, None);
  }

  /** Every frame so far is a page that holds something. */
  ghost predicate Pages(sent: seq<Frame>) {
    forall i :: 0 <= i < |sent| ==> sent[i].Page? && 1 <= |sent[i].events| <= PAGE_SIZE
  }

  /** One await: what happens before the database reads the page, and before the page arrives. */
  datatype Await = Await(beforeRead: seq<Happening>, afterRead: seq<Happening>)

  function Whole(schedule: seq<Await>): seq<Happening> {
    if schedule == [] then [] else schedule[0].beforeRead + schedule[0].afterRead + Whole(schedule[1..])
  }

  ghost predicate FirstPage(page: seq<Event>, all: seq<Event>) {
    page == all[..if |all| < PAGE_SIZE then |all| else PAGE_SIZE]
  }

  /** Everything above `a` has been delivered up to `last`, and nothing else. */
  ghost predicate Replayed(log: seq<Event>, total: seq<Event>, sent: seq<Frame>, a: nat, last: nat) {
    && Log(total) && log <= total
    && (last == a || (last > a && exists e :: e in log && e.number == last))
    && Delivered(sent) + Above(log, last) == Above(log, a)
  }

  lemma GrowKeeps(log: seq<Event>, more: seq<Event>, total: seq<Event>, sent: seq<Frame>, a: nat, last: nat)
    requires Replayed(log, total, sent, a, last) && log + more <= total
    ensures Replayed(log + more, total, sent, a, last)
  {
    assert Log(log + more) by {
      forall i | 0 <= i < |log + more|
        ensures (log + more)[i] == total[i]
      {
      }
    }
    LaterEvents(log, more, a, last);
    Assoc(Delivered(sent), Above(log, last), Above(more, last));
    forall e | e in log
      ensures e in log + more
    {
    }
  }

  /** One page moves the front on; a short page leaves nothing behind it. */
  lemma PageKeeps(log: seq<Event>, total: seq<Event>, sent: seq<Frame>, a: nat, last: nat, page: seq<Event>)
    requires Replayed(log, total, sent, a, last)
    requires page != [] && page <= Above(log, last)
    ensures Replayed(log, total, sent + [Page(page)], a, page[|page| - 1].number)
    ensures Above(log, page[|page| - 1].number) == Above(log, last)[|page|..]
    ensures last < page[|page| - 1].number
  {
    PrefixIsLog(log, total);
    PageFront(log, last, page);
    SendOne(sent, Page(page));
    Assoc(Delivered(sent), page, Above(log, last)[|page|..]);
  }

  lemma PageFront(log: seq<Event>, last: nat, page: seq<Event>)
    requires Log(log) && page != [] && page <= Above(log, last)
    ensures var last' := page[|page| - 1].number;
      && last < last' && (exists e :: e in log && e.number == last')
      && Above(log, last') == Above(log, last)[|page|..] && Above(log, last) == page + Above(log, last')
  {
    var n := |page|;
    assert page[n - 1] == Above(log, last)[n - 1];
    AbovePage(log, last, n);
    var j := AboveElement(log, last, n - 1);
    assert log[j] in log;
  }

  /** The front moves through a finite log, so the paging ends. */
  lemma FrontAdvances(log: seq<Event>, total: seq<Event>, last: nat, last': nat)
    requires last < last' && (exists e :: e in total && e.number == last')
    ensures |Above(total, last')| < |Above(total, last)|
  {
    var j :| 0 <= j < |total| && total[j].number == last';
    assert total == total[..j] + [total[j]] + total[j + 1..];
    AboveConcat(total[..j] + [total[j]], total[j + 1..], last);
    AboveConcat(total[..j] + [total[j]], total[j + 1..], last');
    AboveConcat(total[..j], [total[j]], last);
    AboveConcat(total[..j], [total[j]], last');
    AboveOne(total[j], last);
    AboveOne(total[j], last');
    FewerAbove(total[..j], last, last');
    FewerAbove(total[j + 1..], last, last');
  }

  lemma {:induction false} FewerAbove(log: seq<Event>, a: nat, b: nat)
    requires a <= b
    ensures |Above(log, b)| <= |Above(log, a)|
  {
    if log != [] {
      FewerAbove(log[..|log| - 1], a, b);
    }
  }

  lemma PrefixIsLog(log: seq<Event>, total: seq<Event>)
    requires Log(total) && log <= total
    ensures Log(log)
  {
    forall i | 0 <= i < |log|
      ensures log[i] == total[i]
    {
    }
  }

  lemma AwaitOne(log: seq<Event>, total: seq<Event>, rest: seq<Await>, rest': seq<Await>, around: Await)
    requires Log(total) && log + Appended(Whole(rest)) == total
    requires around.beforeRead + around.afterRead + Whole(rest') == Whole(rest)
    ensures log + Appended(around.beforeRead) + Appended(around.afterRead) + Appended(Whole(rest')) == total
    ensures Log(log + Appended(around.beforeRead))
  {
    var x, y, z := around.beforeRead, around.afterRead, Whole(rest');
    HappenBoth(x, y);
    HappenBoth(x + y, z);
    Assoc(log, Appended(x), Appended(y));
    Assoc(log, Appended(x) + Appended(y), Appended(z));
    Assoc(log + Appended(x), Appended(y), Appended(z));
    assert log + Appended(x) <= total;
    PrefixIsLog(log + Appended(x), total);
  }

  /** A short page was the last one; a full page moves the front on. */
  lemma PageMoves(seen: seq<Event>, total: seq<Event>, last: nat, page: seq<Event>)
    requires Log(total) && seen <= total && FirstPage(page, Above(seen, last))
    ensures var last' := if page == [] then last else page[|page| - 1].number;
      && (|page| < PAGE_SIZE ==> Above(seen, last') == [])
      && (|page| >= PAGE_SIZE ==> |Above(total, last')| < |Above(total, last)|)
  {
    if page != [] {
      PrefixIsLog(seen, total);
      AbovePage(seen, last, |page|);
      var j := AboveElement(seen, last, |page| - 1);
      assert total[j] == seen[j];
      FrontAdvances(seen, total, last, page[|page| - 1].number);
    }
  }

  lemma PagesOne(sent: seq<Frame>, page: seq<Event>)
    requires Pages(sent) && 1 <= |page| <= PAGE_SIZE
    ensures Pages(sent + [Page(page)])
  {
  }

  /** Reading one page at the log `seen` delivers up to its last event; a short page delivers everything. */
  lemma PageRead(seen: seq<Event>, total: seq<Event>, sent: seq<Frame>, a: nat, last: nat, page: seq<Event>)
    requires Replayed(seen, total, sent, a, last) && Pages(sent) && FirstPage(page, Above(seen, last))
    ensures var last' := if page == [] then last else page[|page| - 1].number;
      var sent' := if page == [] then sent else sent + [Page(page)];
      && Replayed(seen, total, sent', a, last') && Pages(sent')
      && (|page| < PAGE_SIZE ==> Delivered(sent') == Above(seen, a) && last' == Latest(seen, a))
  {
    if page != [] {
      PageKeeps(seen, total, sent, a, last, page);
      assert |page| <= PAGE_SIZE;
      PagesOne(sent, page);
    }
    if |page| < PAGE_SIZE {
      PrefixIsLog(seen, total);
      NothingAboveLatest(seen, a, if page == [] then last else page[|page| - 1].number);
    }
  }

  lemma NothingAboveLatest(seen: seq<Event>, a: nat, last: nat)
    requires Log(seen) && (last == a || (last > a && exists e :: e in seen && e.number == last))
    requires Above(seen, last) == []
    ensures last == Latest(seen, a)
  {
    if seen != [] {
      AboveMembers(seen, last, seen[|seen| - 1]);
      assert seen[|seen| - 1] in seen;
    }
  }

  /** Where the paging stands: `rest` of the schedule is to come, all up to `last` is delivered. */
  datatype Front = Front(log: seq<Event>, buffer: seq<Happening>, sent: seq<Frame>,
                         happened: seq<Happening>, rest: seq<Await>, last: nat)

  ghost predicate Paging(log0: seq<Event>, schedule: seq<Await>, a: nat, f: Front) {
    var total := log0 + Appended(Whole(schedule));
    && f.happened + Whole(f.rest) == Whole(schedule)
    && Fed(log0, [], f.log, f.buffer, f.happened) && f.log + Appended(Whole(f.rest)) == total
    && Replayed(f.log, total, f.sent, a, f.last) && Pages(f.sent)
  }

  /** `Paging` kept folded, so that the loop can hand it on without opening it. */
  ghost predicate OnTrack(log0: seq<Event>, schedule: seq<Await>, a: nat, f: Front) {
    forall g {:trigger Paging(log0, schedule, a, g)} :: g == f ==> Paging(log0, schedule, a, g)
  }

  function Measure(log0: seq<Event>, schedule: seq<Await>, last: nat): nat {
    |Above(log0 + Appended(Whole(schedule)), last)|
  }

  lemma PagingStarts(log: seq<Event>, schedule: seq<Await>, a: nat)
    requires Log(log + Appended(Whole(schedule)))
    ensures OnTrack(log, schedule, a, Front(log, [], [], [], schedule, a))
  {
    NothingBefore(Whole(schedule));
    NothingBefore(Above(log, a));
    assert Paging(log, schedule, a, Front(log, [], [], [], schedule, a));
  }

  function AfterPage(f: Front, around: Await, rest': seq<Await>, log': seq<Event>, buffer': seq<Happening>,
                     page: seq<Event>): Front
  {
    Front(log', buffer', if page == [] then f.sent else f.sent + [Page(page)],
          f.happened + (around.beforeRead + around.afterRead), rest',
          if page == [] then f.last else page[|page| - 1].number)
  }

  /** The await `around` brought `page`. */
  ghost predicate Arrived(f: Front, around: Await, rest': seq<Await>, log': seq<Event>, buffer': seq<Happening>,
                          page: seq<Event>)
  {
    && around.beforeRead + around.afterRead + Whole(rest') == Whole(f.rest)
    && log' == f.log + Appended(around.beforeRead) + Appended(around.afterRead)
    && Fed(f.log, f.buffer, log', buffer', around.beforeRead + around.afterRead)
    && FirstPage(page, Above(f.log + Appended(around.beforeRead), f.last))
  }

  lemma PagingKept(log0: seq<Event>, schedule: seq<Await>, a: nat, f: Front, around: Await, rest': seq<Await>,
                   log': seq<Event>, buffer': seq<Happening>, page: seq<Event>)
    requires Paging(log0, schedule, a, f) && Arrived(f, around, rest', log', buffer', page)
    ensures var f' := AfterPage(f, around, rest', log', buffer', page);
      && Paging(log0, schedule, a, f')
      && (|page| < PAGE_SIZE ==> Complete(f.log + Appended(around.beforeRead), a, f'))
  {
    var total, seen := log0 + Appended(Whole(schedule)), f.log + Appended(around.beforeRead);
    var f' := AfterPage(f, around, rest', log', buffer', page);
    AwaitOne(f.log, total, f.rest, rest', around);
    GrowKeeps(f.log, Appended(around.beforeRead), total, f.sent, a, f.last);
    PageRead(seen, total, f.sent, a, f.last, page);
    GrowKeeps(seen, Appended(around.afterRead), total, f'.sent, a, f'.last);
    FedBoth(log0, [], f.log, f.buffer, log', buffer', f.happened, around.beforeRead + around.afterRead);
    Assoc(f.happened, around.beforeRead + around.afterRead, Whole(rest'));
  }

  /** The last page was read at the log `seen`, and everything it held is delivered. */
  ghost predicate Complete(seen: seq<Event>, a: nat, f: Front) {
    Delivered(f.sent) == Above(seen, a) && f.last == Latest(seen, a)
  }

  lemma PagingMoves(log0: seq<Event>, schedule: seq<Await>, a: nat, f: Front, around: Await, rest': seq<Await>,
                    log': seq<Event>, buffer': seq<Happening>, page: seq<Event>)
    requires Paging(log0, schedule, a, f) && Arrived(f, around, rest', log', buffer', page)
    requires |page| >= PAGE_SIZE
    ensures Measure(log0, schedule, page[|page| - 1].number) < Measure(log0, schedule, f.last)
  {
    var total := log0 + Appended(Whole(schedule));
    AwaitOne(f.log, total, f.rest, rest', around);
    PageMoves(f.log + Appended(around.beforeRead), total, f.last, page);
  }

  lemma PagingSteps(log0: seq<Event>, schedule: seq<Await>, a: nat, f: Front, around: Await, rest': seq<Await>,
                    log': seq<Event>, buffer': seq<Happening>, page: seq<Event>)
    requires OnTrack(log0, schedule, a, f) && Arrived(f, around, rest', log', buffer', page)
    ensures var f' := AfterPage(f, around, rest', log', buffer', page);
      && OnTrack(log0, schedule, a, f')
      && (|page| < PAGE_SIZE ==> Complete(f.log + Appended(around.beforeRead), a, f'))
      && (|page| >= PAGE_SIZE ==> Measure(log0, schedule, f'.last) < Measure(log0, schedule, f.last))
    ensures f.log == log0 + Appended(f.happened)
  {
    assert Paging(log0, schedule, a, f);
    PagingKept(log0, schedule, a, f, around, rest', log', buffer', page);
    if |page| >= PAGE_SIZE {
      PagingMoves(log0, schedule, a, f, around, rest', log', buffer', page);
    }
  }

  lemma ReadableLog(log0: seq<Event>, schedule: seq<Await>, a: nat, f: Front, rest': seq<Await>, around: Await)
    requires OnTrack(log0, schedule, a, f)
    requires around.beforeRead + around.afterRead + Whole(rest') == Whole(f.rest)
    ensures Log(f.log + Appended(around.beforeRead))
  {
    assert Paging(log0, schedule, a, f);
    AwaitOne(f.log, log0 + Appended(Whole(schedule)), f.rest, rest', around);
  }

  lemma {:induction false} NoDeltas(sent: seq<Frame>)
    requires Pages(sent)
    ensures Deltas(sent) == []
  {
    if sent != [] {
      NoDeltas(sent[..|sent| - 1]);
    }
  }

  /** With the buffer flushed the replay has sent what `Received` says. */
  lemma PagingEnds(log0: seq<Event>, schedule: seq<Await>, a: nat, f: Front, sent': seq<Frame>,
                   before: seq<Happening>, between: seq<Happening>)
    requires OnTrack(log0, schedule, a, f) && f.happened == before + between
    requires Complete(log0 + Appended(before), a, f) && sent' == f.sent + Kept(f.buffer, Some(f.last))
    ensures sent' == f.sent + Kept(before + between, Some(Latest(log0 + Appended(before), a))) && Pages(f.sent)
    ensures Delivered(f.sent) == Above(log0 + Appended(before), a)
    ensures Delivered(sent') == Received(log0, a, before, between, []) && Deltas(sent') == Texts(before + between)
    ensures before + between <= Whole(schedule) && f.log == log0 + Appended(before + between)
  {
    assert Paging(log0, schedule, a, f);
    NothingBefore(Listened(f.happened));
    KeptListened(f.happened, Some(f.last));
    KeptParts(f.happened, Some(f.last));
    SentBoth(f.sent, Kept(f.happened, Some(f.last)));
    NoDeltas(f.sent);
    assert Whole(schedule)[..|f.happened|] == f.happened;
  }

  lemma LastRead(log0: seq<Event>, happened: seq<Happening>, around: Await)
    ensures log0 + Appended(happened + around.beforeRead) == log0 + Appended(happened) + Appended(around.beforeRead)
    ensures happened + (around.beforeRead + around.afterRead) == happened + around.beforeRead + around.afterRead
  {
    HappenBoth(happened, around.beforeRead);
    Assoc(log0, Appended(happened), Appended(around.beforeRead));
  }

  class Subscription {
    var log: seq<Event>
    var buffering: bool
    var buffer: seq<Happening>
    var sent: seq<Frame>

    constructor (log: seq<Event>)
      ensures this.log == log && sent == [] && buffering && buffer == []
    {
      this.log := log;
      buffering := true;
      buffer := [];
      sent := [];
    }

    /** The runtime appends or publishes; the listener buffers or sends. A rename is no concern here. */
    method Happen(h: Happening)
      requires Buffered(buffer)
      modifies this`log, this`buffer, this`sent
      ensures log == old(log) + AppendedBy(h) && Buffered(buffer)
      ensures buffering ==> sent == old(sent) && buffer == old(buffer) + HeardOf(h)
      ensures !buffering ==> buffer == old(buffer) && sent == old(sent) + FramesFor(h, None)
    {
      match h {
        case SessionChanged => return;
        case Appends(e) =>
          log := log + [e];
          return;
        case _ =>
      }
      if buffering {
        buffer := buffer + [h];
      } else {
        sent := sent + [if h.Publishes? then Single(h.event) else DeltaFrame(h.text)];
      }
    }

    method HappenWhileBuffering(hs: seq<Happening>)
      requires buffering && Buffered(buffer)
      modifies this`log, this`buffer, this`sent
      ensures Fed(old(log), old(buffer), log, buffer, hs) && sent == old(sent) && Buffered(buffer)
    {
      ghost var log0, buffer0 := log, buffer;
      assert hs[..0] == [];
      var i := 0;
      while i < |hs|
        invariant 0 <= i <= |hs| && buffering && sent == old(sent) && Buffered(buffer)
        invariant Fed(log0, buffer0, log, buffer, hs[..i])
      {
        ghost var log1, buffer1 := log, buffer;
        Happen(hs[i]);
        FedOne(log0, buffer0, log1, buffer1, log, buffer, hs, i);
        i := i + 1;
      }
      assert hs[..i] == hs;
    }

    /** A live subscriber is sent whatever is published, as it is published. */
    method HappenWhileLive(hs: seq<Happening>)
      requires !buffering && Buffered(buffer)
      modifies this`log, this`buffer, this`sent
      ensures Followed(old(log), old(sent), log, sent, hs)
    {
      ghost var log0, sent0 := log, sent;
      assert hs[..0] == [];
      var i := 0;
      while i < |hs|
        invariant 0 <= i <= |hs| && !buffering && Buffered(buffer)
        invariant Followed(log0, sent0, log, sent, hs[..i])
      {
        FollowOne(log0, sent0, log, sent, hs, i);
        Happen(hs[i]);
        i := i + 1;
      }
      assert hs[..i] == hs;
    }

    /** `listEvents`: the next page above the cursor, all of the log when there is no cursor. */
    method ListEvents(cursor: Option<nat>) returns (page: seq<Event>)
      requires Log(log)
      ensures FirstPage(page, Above(log, if cursor.Some? then cursor.value else 0))
    {
      var all := log;
      if cursor.Some? {
        all := Above(log, cursor.value);
      } else {
        AllAbove(log, 0);
      }
      page := all[..if |all| < PAGE_SIZE then |all| else PAGE_SIZE];
    }

    /** The buffer goes out in its order, without the events the replay has covered. */
    method Flush(last: nat)
      requires !buffering && Buffered(buffer)
      modifies this`sent
      ensures sent == old(sent) + Kept(buffer, Some(last))
    {
      ghost var sent0 := sent;
      assert buffer[..0] == [];
      var i := 0;
      while i < |buffer|
        invariant 0 <= i <= |buffer|
        invariant sent == sent0 + Kept(buffer[..i], Some(last))
      {
        var h := buffer[i];
        FlushOne(sent0, sent, buffer, i, Some(last));
        i := i + 1;
        if h.Publishes? && h.event.number <= last {
          continue;
        }
        sent := sent + [if h.Publishes? then Single(h.event) else DeltaFrame(h.text)];
      }
      assert buffer[..i] == buffer;
    }

    /** `await listEvents(...)`: the runtime goes on around it. */
    method AwaitPage(cursor: Option<nat>, around: Await) returns (page: seq<Event>)
      requires buffering && Buffered(buffer) && Log(log + Appended(around.beforeRead))
      modifies this`log, this`buffer, this`sent
      ensures sent == old(sent) && Buffered(buffer)
      ensures Fed(old(log), old(buffer), log, buffer, around.beforeRead + around.afterRead)
      ensures log == old(log) + Appended(around.beforeRead) + Appended(around.afterRead)
      ensures FirstPage(page, Above(old(log) + Appended(around.beforeRead), if cursor.Some? then cursor.value else 0))
    {
      HappenWhileBuffering(around.beforeRead);
      page := ListEvents(cursor);
      ghost var log1, buffer1 := log, buffer;
      HappenWhileBuffering(around.afterRead);
      FedBoth(old(log), old(buffer), log1, buffer1, log, buffer, around.beforeRead, around.afterRead);
    }

    /** One turn of the replay loop: wait for a page and send it. */
    method ReplayPage(cursor: Option<nat>, last: nat, around: Await, ghost log0: seq<Event>, ghost schedule: seq<Await>,
                      ghost a: nat, ghost f: Front, ghost rest': seq<Await>)
      returns (more: bool, last': nat)
      requires buffering && Buffered(buffer) && last == if cursor.Some? then cursor.value else 0
      requires OnTrack(log0, schedule, a, f)
      requires f.log == log && f.buffer == buffer && f.sent == sent && f.last == last
      requires around.beforeRead + around.afterRead + Whole(rest') == Whole(f.rest)
      modifies this`log, this`buffer, this`sent
      ensures Buffered(buffer)
      ensures var f' := Front(log, buffer, sent, f.happened + (around.beforeRead + around.afterRead), rest', last');
        && OnTrack(log0, schedule, a, f')
        && (!more ==> Complete(log0 + Appended(f.happened + around.beforeRead), a, f'))
      ensures more ==> Measure(log0, schedule, last') < Measure(log0, schedule, last)
    {
      ReadableLog(log0, schedule, a, f, rest', around);
      var page := AwaitPage(cursor, around);
      PagingSteps(log0, schedule, a, f, around, rest', log, buffer, page);
      LastRead(log0, f.happened, around);
      last' := last;
      if page != [] {
        sent := sent + [Page(page)];
        last' := page[|page| - 1].number;
      }
      more := |page| >= PAGE_SIZE;
    }

    /**
     The whole of `handleSubscribe`, from the subscription on. Every await takes one entry of the
     schedule; after its end nothing more happens. Returns what happened up to the read of the last page,
     what happened from there to the flush, and the pages sent, which hold the events of the log above the start.
     Behind them comes what the listener heard meanwhile, in its order and without the events they cover.
     */
    method HandleSubscribe(after: Option<nat>, schedule: seq<Await>)
      returns (ghost before: seq<Happening>, ghost between: seq<Happening>, ghost pages: seq<Frame>)
      requires buffering && buffer == [] && sent == []
      requires Log(log + Appended(Whole(schedule)))
      modifies this
      ensures !buffering && Buffered(buffer) && before + between <= Whole(schedule)
      ensures log == old(log) + Appended(before + between)
      ensures var a, seen := if after.Some? then after.value else 0, old(log) + Appended(before);
        && Pages(pages) && Delivered(pages) == Above(seen, a)
        && sent == pages + Kept(before + between, Some(Latest(seen, a)))
      ensures Delivered(sent) == Received(old(log), if after.Some? then after.value else 0, before, between, [])
      ensures Deltas(sent) == Texts(before + between)
    {
      ghost var a: nat := if after.Some? then after.value else 0;
      ghost var log0 := log;
      var cursor := after;
      var last: nat := if after.Some? then after.value else 0;
      var rest := schedule;
      ghost var happened: seq<Happening> := [];
      PagingStarts(log, schedule, a);
      while true
        invariant buffering && Buffered(buffer) && (if cursor.Some? then cursor.value else 0) == last
        invariant OnTrack(log0, schedule, a, Front(log, buffer, sent, happened, rest, last))
        decreases Measure(log0, schedule, last)
      {
        var around, rest' := Await([], []), rest;
        if rest != [] {
          around, rest' := rest[0], rest[1..];
        }
        ghost var f := Front(log, buffer, sent, happened, rest, last);
        var more;
        more, last := ReplayPage(cursor, last, around, log0, schedule, a, f, rest');
        LastRead(log0, happened, around);
        before, between := happened + around.beforeRead, around.afterRead;
        happened := happened + (around.beforeRead + around.afterRead);
        rest := rest';
        if !more {
          break;
        }
        cursor := Some(last);
      }
      buffering := false;
      ghost var f := Front(log, buffer, sent, happened, rest, last);
      pages := sent;
      Flush(last);
      PagingEnds(log0, schedule, a, f, sent, before, between);
    }
  }
}
