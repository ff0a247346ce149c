/**
 The sequential quit of apps/desktop/src/lib.rs: the queue of windows asked to close one after the
 other, the fallback timers, and the decline that calls everything off. Events come in any order. The
 menu, the window and exit handlers and the commands that decline or restart are synchronous, so they all
 run on the main thread, one after the other: that makes each of them, with all of `AdvanceQuit` in it, one
 event, although the queue's lock is released on the way. Only the timers are threads of their own.
 */
module Quit {
  import opened Wrappers

  type Window = string

  datatype Action = Exit | Restart

  datatype QuitState = QuitState(remaining: seq<Window>, action: Action)

  /** A sleeping fallback timer: the generation it was armed with and the window it is for. */
  datatype Timer = Timer(generation: nat, window: Window)

  /**
   `open` are the windows, `quit` the sequence under way, `generation` the fallback generation. History
   of the latest sequence: its queue, how many it has taken from it, the positions of those it asked,
   the actions it ran, whether it was declined. `lastAsked` is the window asked last, until a decline;
   `cleared` are the timers that found their generation current and are about to act; `forced` are those
   that closed their window; `newcomers` opened since the sequence began; `ended` tells that the app has let
   an exit go through.
   */
  datatype State = State(
    open: set<Window>, quit: Option<QuitState>, generation: nat, timers: set<Timer>, cleared: set<Timer>,
    queue: seq<Window>, taken: nat, asked: seq<nat>, ran: seq<Action>, declined: bool,
    lastAsked: Option<Window>, forced: seq<Timer>, newcomers: set<Window>,
    ended: bool)

  datatype Event =
    | Opens(window: Window)
    | Quits(action: Action, order: seq<Window>)
    | Destroyed(window: Window)
    | Declines
    | TimerWakes(timer: Timer)
    | TimerActs(timer: Timer)
    | ExitRequested(order: seq<Window>)

  /** The windows in some order, each once: what a listing of the window map can be. */
  ghost predicate Listing(order: seq<Window>, open: set<Window>) {
    && (forall l :: l in order <==> l in open)
    && (forall i, j :: 0 <= i < j < |order| ==> order[i] != order[j])
  }

  datatype Advance = CloseWindow(window: Window, next: QuitState) | Finished(action: Action) | Idle

  function QuitAdvance(quit: Option<QuitState>): Advance {
    match quit
    case None => Idle
    case Some(QuitState(remaining, action)) =>
      if remaining == [] then Finished(action)
      else CloseWindow(remaining[0], QuitState(remaining[1..], action))
  }

  /** Asks the next queued window that is still there, passing over those that vanished, or finishes. */
  function AdvanceQuit(st: State): State
    decreases if st.quit.Some? then |st.quit.value.remaining| else 0
  {
    match QuitAdvance(st.quit)
    case Idle => st
    case Finished(action) => st.(quit := None, ran := st.ran + [action])
    case CloseWindow(window, next) =>
      var st' := st.(quit := Some(next), taken := st.taken + 1);
      if window in st.open then
        st'.(generation := st.generation + 1, timers := st.timers + {Timer(st.generation + 1, window)},
             asked := st.asked + [st.taken], lastAsked := Some(window))
      else AdvanceQuit(st')
  }

  /** A second request while a sequence is under way is ignored. */
  function BeginQuit(st: State, action: Action, order: seq<Window>): State {
    if st.quit.Some? then st
    else AdvanceQuit(st.(quit := Some(QuitState(order, action)),
                         queue := order, taken := 0, asked := [], ran := [],
                         declined := false, newcomers := {}))
  }

  ghost predicate Enabled(st: State, e: Event) {
    match e
    case Opens(l) => true
    case Quits(_, order) => Listing(order, st.open)
    case Destroyed(l) => l in st.open
    case Declines => true
    case TimerWakes(timer) => timer in st.timers
    case TimerActs(timer) => timer in st.cleared
    case ExitRequested(order) => Listing(order, st.open)
  }

  function Next(st: State, e: Event): State {
    match e
    case Opens(l) =>
      if l in st.open then st else st.(open := st.open + {l}, newcomers := st.newcomers + {l})
    case Quits(action, order) => BeginQuit(st, action, order)
    case Destroyed(l) => AdvanceQuit(st.(open := st.open - {l}))
    case Declines =>
      st.(generation := st.generation + 1, quit := None, lastAsked := None,
          declined := st.declined || st.quit.Some?)
    case TimerWakes(timer) =>
      st.(timers := st.timers - {timer},
          cleared := if timer.generation == st.generation then st.cleared + {timer} else st.cleared)
    case TimerActs(timer) =>
      st.(cleared := st.cleared - {timer},
          forced := if timer.window in st.open then st.forced + [timer] else st.forced)
    case ExitRequested(order) =>
      if st.open != {} then BeginQuit(st, Exit, order) else st.(ended := true)
  }

  ghost function Run(st: State, events: seq<Event>): State
    decreases |events|
  {
    if events == [] then st
    else
      var before := Run(st, events[..|events| - 1]);
      var e := events[|events| - 1];
      if Enabled(before, e) then Next(before, e) else before
  }

  function Start(open: set<Window>): State {
    State(open, None, 0, {}, {}, [], 0, [], [], false, None, [], open, false)
  }

  // -------- What every run keeps

  ghost predicate QueueInv(st: State) {
    && (forall i, j :: 0 <= i < j < |st.queue| ==> st.queue[i] != st.queue[j])
    && st.taken <= |st.queue|
    && (st.quit.Some? ==> st.quit.value.remaining == st.queue[st.taken..])
    && (forall i :: 0 <= i < |st.asked| ==> st.asked[i] < st.taken)
    && (forall i, j :: 0 <= i < j < |st.asked| ==> st.asked[i] < st.asked[j])
    && |st.ran| <= 1
    && (st.ran != [] ==> st.quit.None? && st.taken == |st.queue| && !st.declined)
    && (st.declined ==> st.quit.None?)
  }

  /** Windows there since the sequence began were queued, and asked when their turn came. */
  ghost predicate TurnInv(st: State) {
    && (forall l :: l in st.open && l !in st.newcomers ==> l in st.queue)
    && st.taken <= |st.queue|
    && (forall i :: 0 <= i < st.taken && st.queue[i] in st.open && st.queue[i] !in st.newcomers ==>
          i in st.asked)
  }

  /** A timer that could still fire is for the window asked last, with no decline since. */
  ghost predicate TimerInv(st: State) {
    && (forall timer :: timer in st.timers || timer in st.cleared ==> timer.generation <= st.generation)
    && (forall timer :: (timer in st.timers || timer in st.cleared) && timer.generation == st.generation ==>
          st.lastAsked == Some(timer.window))
  }

  ghost predicate Inv(st: State) {
    QueueInv(st) && TurnInv(st) && TimerInv(st)
  }

  lemma {:induction false} AdvanceKeeps(st: State)
    requires Inv(st)
    ensures Inv(AdvanceQuit(st))
    decreases if st.quit.Some? then |st.quit.value.remaining| else 0
  {
    if st.quit.Some? && st.quit.value.remaining != [] {
      var window := st.quit.value.remaining[0];
      assert st.queue[st.taken..][1..] == st.queue[st.taken + 1..];
      if window !in st.open {
        AdvanceKeeps(st.(quit := Some(st.quit.value.(remaining := st.quit.value.remaining[1..])),
                         taken := st.taken + 1));
      }
    }
  }

  lemma BeginKeeps(st: State, action: Action, order: seq<Window>)
    requires Inv(st) && Listing(order, st.open)
    ensures Inv(BeginQuit(st, action, order))
  {
    if st.quit.None? {
      AdvanceKeeps(st.(quit := Some(QuitState(order, action)),
                       queue := order, taken := 0, asked := [], ran := [],
                         declined := false, newcomers := {}));
    }
  }

  lemma NextKeeps(st: State, e: Event)
    requires Inv(st) && Enabled(st, e)
    ensures Inv(Next(st, e))
  {
    match e
    case Quits(action, order) => BeginKeeps(st, action, order);
    case ExitRequested(order) => BeginKeeps(st, Exit, order);
    case Destroyed(l) => AdvanceKeeps(st.(open := st.open - {l}));
    case _ =>
  }

  lemma {:induction false} RunKeeps(open: set<Window>, events: seq<Event>)
    ensures Inv(Run(Start(open), events))
    decreases |events|
  {
    if events != [] {
      RunKeeps(open, events[..|events| - 1]);
      var before, e := Run(Start(open), events[..|events| - 1]), events[|events| - 1];
      if Enabled(before, e) {
        NextKeeps(before, e);
      }
    }
  }

  // -------- What that means for a quit

  /** One sequence asks each queued window at most once, in queue order, and runs its action at most once. */
  lemma EachAskedOnceInOrder(open: set<Window>, events: seq<Event>)
    ensures var st := Run(Start(open), events);
      && (forall i :: 0 <= i < |st.asked| ==> st.asked[i] < |st.queue|)
      && (forall i, j :: 0 <= i < j < |st.asked| ==>
            st.asked[i] < st.asked[j] && st.queue[st.asked[i]] != st.queue[st.asked[j]])
      && |st.ran| <= 1
      && (st.ran != [] ==> st.quit.None? && st.taken == |st.queue| && !st.declined)
  {
    RunKeeps(open, events);
  }

  /** Once the action ran, every window that was there all along has been asked. */
  lemma NobodyPassedOver(open: set<Window>, events: seq<Event>, l: Window)
    requires var st := Run(Start(open), events);
             st.ran != [] && l in st.open && l !in st.newcomers
    ensures var st := Run(Start(open), events);
      exists k :: 0 <= k < |st.asked| && st.asked[k] < |st.queue| && st.queue[st.asked[k]] == l
  {
    RunKeeps(open, events);
    var st := Run(Start(open), events);
    var i :| 0 <= i < |st.queue| && st.queue[i] == l;
    assert i in st.asked;
  }

  /**
   A timer closes its window without asking only after it found its generation current. At that moment the
   window was the one asked last, and nobody had declined since; if the generation is still the same when the
   timer acts, that is still so.
   */
  lemma ForcedWasAskedLast(open: set<Window>, events: seq<Event>, e: Event)
    requires Enabled(Run(Start(open), events), e)
    ensures var st := Run(Start(open), events); var st' := Next(st, e);
      && (st'.cleared <= st.cleared || (e.TimerWakes? && st'.cleared == st.cleared + {e.timer}
                                        && st.lastAsked == Some(e.timer.window)))
      && (st'.forced == st.forced || (e.TimerActs? && e.timer.window in st.open && st'.forced == st.forced + [e.timer]
                                      && (e.timer.generation == st.generation ==> st.lastAsked == Some(e.timer.window))))
  {
    RunKeeps(open, events);
    EventForces(Run(Start(open), events), e);
  }

  lemma EventForces(st: State, e: Event)
    ensures !e.TimerActs? ==> Next(st, e).forced == st.forced
    ensures !e.TimerActs? && !e.TimerWakes? ==> Next(st, e).cleared == st.cleared
  {
    if e.Destroyed? {
      AdvanceForcesNobody(st.(open := st.open - {e.window}));
    } else if e.Quits? || e.ExitRequested? {
      var action := if e.Quits? then e.action else Exit;
      AdvanceForcesNobody(st.(quit := Some(QuitState(e.order, action)), queue := e.order, taken := 0,
                              asked := [], ran := [], declined := false, newcomers := {}));
    }
  }

  lemma {:induction false} AdvanceForcesNobody(st: State)
    ensures AdvanceQuit(st).forced == st.forced && AdvanceQuit(st).open == st.open
    ensures AdvanceQuit(st).cleared == st.cleared
    ensures AdvanceQuit(st).newcomers == st.newcomers && AdvanceQuit(st).queue == st.queue
    decreases if st.quit.Some? then |st.quit.value.remaining| else 0
  {
    if st.quit.Some? && st.quit.value.remaining != [] && st.quit.value.remaining[0] !in st.open {
      AdvanceForcesNobody(st.(quit := Some(st.quit.value.(remaining := st.quit.value.remaining[1..])),
                              taken := st.taken + 1));
    }
  }

  ghost predicate NoNewQuit(events: seq<Event>) {
    forall e :: e in events ==> !e.Quits? && !e.ExitRequested?
  }

  /**
   After a decline, until a new quit is requested, nobody is asked and nothing ends, and no timer finds its
   generation current. What still closes unasked are windows of timers that had found it so before.
   */
  lemma {:induction false} DeclineIsFinal(open: set<Window>, events: seq<Event>, later: seq<Event>)
    requires NoNewQuit(later)
    ensures var st := Next(Run(Start(open), events), Declines); var st' := Run(st, later);
      && st'.quit.None? && st'.asked == st.asked && st'.ran == st.ran
      && (forall timer :: timer in st'.timers ==> timer.generation < st'.generation)
      && st'.cleared <= st.cleared && st.forced <= st'.forced
      && (forall i :: |st.forced| <= i < |st'.forced| ==> st'.forced[i] in st.cleared)
    decreases |later|
  {
    RunKeeps(open, events);
    if later != [] {
      assert forall e :: e in later[..|later| - 1] ==> e in later;
      DeclineIsFinal(open, events, later[..|later| - 1]);
      var e := later[|later| - 1];
      assert e in later;
      EventForces(Run(Next(Run(Start(open), events), Declines), later[..|later| - 1]), e);
    }
  }

  /** In this continuation `timer` closes its window. */
  ghost predicate Forces(st: State, later: seq<Event>, timer: Timer) {
    exists i :: |st.forced| <= i < |Run(st, later).forced| && Run(st, later).forced[i] == timer
  }

  /** So a window is closed in spite of a decline exactly if its timer was between its check and its act. */
  lemma ForcedInSpiteIff(open: set<Window>, events: seq<Event>, timer: Timer)
    ensures var st := Next(Run(Start(open), events), Declines);
      (exists later :: NoNewQuit(later) && Forces(st, later, timer)) <==> timer in st.cleared
  {
    var st := Next(Run(Start(open), events), Declines);
    forall later | NoNewQuit(later) && Forces(st, later, timer) ensures timer in st.cleared {
      DeclineIsFinal(open, events, later);
    }
    if timer in st.cleared {
      var later := [Opens(timer.window), TimerActs(timer)];
      assert later[..1] == [Opens(timer.window)] && later[..1][..0] == [] && Run(st, []) == st;
      var st1 := Next(st, Opens(timer.window));
      assert Run(st, later[..1]) == st1 && timer.window in st1.open;
      assert Run(st, later).forced == st.forced + [timer];
      assert Run(st, later).forced[|st.forced|] == timer;
      assert NoNewQuit(later) && Forces(st, later, timer);
    }
  }

  /** No two timers of one generation, and no timer anywhere twice: asleep, about to act, or done. */
  ghost predicate TimersOnce(st: State) {
    && (forall s, t :: s in st.timers + st.cleared && t in st.timers + st.cleared && s.generation == t.generation ==> s == t)
    && st.timers !! st.cleared
    && (forall t :: t in st.forced ==> t !in st.timers && t !in st.cleared && t.generation <= st.generation)
    && (forall t :: t in st.timers + st.cleared ==> t.generation <= st.generation)
    && (forall i, j :: 0 <= i < j < |st.forced| ==> st.forced[i] != st.forced[j])
  }

  lemma {:induction false} AdvanceArms(st: State)
    requires TimersOnce(st)
    ensures TimersOnce(AdvanceQuit(st))
    decreases if st.quit.Some? then |st.quit.value.remaining| else 0
  {
    if st.quit.Some? && st.quit.value.remaining != [] && st.quit.value.remaining[0] !in st.open {
      AdvanceArms(st.(quit := Some(st.quit.value.(remaining := st.quit.value.remaining[1..])), taken := st.taken + 1));
    }
  }

  lemma EventArms(st: State, e: Event)
    requires TimersOnce(st) && Enabled(st, e)
    ensures TimersOnce(Next(st, e))
  {
    if e.Destroyed? {
      AdvanceArms(st.(open := st.open - {e.window}));
    } else if (e.Quits? || e.ExitRequested?) && st.quit.None? {
      var action := if e.Quits? then e.action else Exit;
      AdvanceArms(st.(quit := Some(QuitState(e.order, action)), queue := e.order, taken := 0,
                      asked := [], ran := [], declined := false, newcomers := {}));
    }
  }

  /** A timer closes its window at most once. */
  lemma {:induction false} EachTimerActsOnce(open: set<Window>, events: seq<Event>)
    ensures TimersOnce(Run(Start(open), events))
    decreases |events|
  {
    if events != [] {
      EachTimerActsOnce(open, events[..|events| - 1]);
      var before, e := Run(Start(open), events[..|events| - 1]), events[|events| - 1];
      if Enabled(before, e) {
        EventArms(before, e);
      }
    }
  }

  /** It happens: the only window answers with a decline just behind the timer's check, and is closed unasked. */
  lemma DeclinedButForced(a: Window)
    ensures
      var timer := Timer(1, a);
      var st := Run(Start({a}), [Quits(Exit, [a]), TimerWakes(timer), Declines]);
      st.quit.None? && st.declined && a in st.open && Next(st, TimerActs(timer)).forced == [timer] && timer in st.cleared
  {
    var timer, start := Timer(1, a), Start({a});
    var e1, e2, e3 := [Quits(Exit, [a])], [Quits(Exit, [a]), TimerWakes(timer)], [Quits(Exit, [a]), TimerWakes(timer), Declines];
    assert e1[..0] == [] && e2[..1] == e1 && e3[..2] == e2 && Run(start, []) == start;
    assert [a][0] == a && Listing([a], {a});
    var asked := Run(start, e1);
    assert asked == BeginQuit(start, Exit, [a]);
    assert asked.timers == {timer} && asked.generation == 1;
    assert Run(start, e2).cleared == {timer};
  }

  // -------- One window at a time

  ghost predicate AskedInv(st: State) {
    st.quit.Some? ==>
      && st.asked != [] && st.asked[|st.asked| - 1] < |st.queue|
      && st.lastAsked == Some(st.queue[st.asked[|st.asked| - 1]])
  }

  /** Windows asked by this sequence that are still there, other than the one asked last. */
  ghost predicate OneOutstanding(st: State) {
    forall k :: 0 <= k < |st.asked| - 1 && st.asked[k] < |st.queue| ==>
      st.queue[st.asked[k]] !in st.open || st.queue[st.asked[k]] in st.newcomers
  }

  /** None of the windows asked so far is still there. */
  ghost predicate NoneOutstanding(st: State) {
    forall k :: 0 <= k < |st.asked| && st.asked[k] < |st.queue| ==>
      st.queue[st.asked[k]] !in st.open || st.queue[st.asked[k]] in st.newcomers
  }

  lemma {:induction false} AdvanceAsks(st: State)
    requires QueueInv(st)
    ensures AskedInv(AdvanceQuit(st))
    ensures NoneOutstanding(st) ==> OneOutstanding(AdvanceQuit(st))
    decreases if st.quit.Some? then |st.quit.value.remaining| else 0
  {
    if st.quit.Some? && st.quit.value.remaining != [] {
      assert st.queue[st.taken..][1..] == st.queue[st.taken + 1..];
      if st.quit.value.remaining[0] !in st.open {
        AdvanceAsks(st.(quit := Some(st.quit.value.(remaining := st.quit.value.remaining[1..])),
                        taken := st.taken + 1));
      }
    }
  }

  /** No window closes out of turn: while a quit is under way only the window asked last is destroyed. */
  ghost predicate InTurn(open: set<Window>, events: seq<Event>)
    decreases |events|
  {
    events != [] ==>
      var before := Run(Start(open), events[..|events| - 1]);
      var e := events[|events| - 1];
      && InTurn(open, events[..|events| - 1])
      && (e.Destroyed? && e.window in before.open && before.quit.Some? ==> before.lastAsked == Some(e.window))
  }

  lemma {:induction false} RunAsks(open: set<Window>, events: seq<Event>)
    ensures AskedInv(Run(Start(open), events))
    decreases |events|
  {
    if events != [] {
      RunAsks(open, events[..|events| - 1]);
      RunKeeps(open, events[..|events| - 1]);
      var before, e := Run(Start(open), events[..|events| - 1]), events[|events| - 1];
      if Enabled(before, e) {
        if e.Destroyed? {
          AdvanceAsks(before.(open := before.open - {e.window}));
        } else if (e.Quits? || e.ExitRequested?) && before.quit.None? {
          var action := if e.Quits? then e.action else Exit;
          AdvanceAsks(before.(quit := Some(QuitState(e.order, action)), queue := e.order, taken := 0,
                              asked := [], ran := [], declined := false, newcomers := {}));
        }
      }
    }
  }

  /** Without closes out of turn, at most one of the windows asked is waiting for its answer. */
  lemma {:induction false} OneAtATime(open: set<Window>, events: seq<Event>)
    requires InTurn(open, events)
    ensures var st := Run(Start(open), events); st.quit.Some? ==> OneOutstanding(st)
    decreases |events|
  {
    if events != [] {
      OneAtATime(open, events[..|events| - 1]);
      RunKeeps(open, events[..|events| - 1]);
      RunAsks(open, events[..|events| - 1]);
      var before, e := Run(Start(open), events[..|events| - 1]), events[|events| - 1];
      if Enabled(before, e) {
        if e.Destroyed? {
          AdvanceAsks(before.(open := before.open - {e.window}));
        } else if (e.Quits? || e.ExitRequested?) && before.quit.None? {
          var action := if e.Quits? then e.action else Exit;
          AdvanceAsks(before.(quit := Some(QuitState(e.order, action)), queue := e.order, taken := 0,
                              asked := [], ran := [], declined := false, newcomers := {}));
        }
      }
    }
  }

  ghost predicate AllGone(queued: seq<Window>, open: set<Window>) {
    forall l :: l in queued ==> l !in open
  }

  lemma AllGoneTail(queued: seq<Window>, open: set<Window>)
    requires queued != [] && queued[0] !in open
    ensures AllGone(queued, open) <==> AllGone(queued[1..], open)
  {
    assert forall l :: l in queued ==> l == queued[0] || l in queued[1..];
  }

  lemma {:induction false} AdvanceMovesOn(st: State)
    requires st.quit.Some?
    ensures var st' := AdvanceQuit(st);
      if AllGone(st.quit.value.remaining, st.open)
      then st'.quit.None? && st'.ran == st.ran + [st.quit.value.action] && st'.asked == st.asked
      else st'.ran == st.ran && |st'.asked| == |st.asked| + 1
    decreases |st.quit.value.remaining|
  {
    var remaining := st.quit.value.remaining;
    if remaining != [] {
      if remaining[0] in st.open {
        assert !AllGone(remaining, st.open);
      } else {
        AllGoneTail(remaining, st.open);
        AdvanceMovesOn(st.(quit := Some(st.quit.value.(remaining := remaining[1..])), taken := st.taken + 1));
      }
    }
  }

  /**
   The sequence does not check whose turn it was. A window that goes while another is still being
   asked moves it on all the same, and ends it when nothing else is queued.
   */
  lemma MovesOnWhileAskingIff(open: set<Window>, events: seq<Event>, l: Window)
    requires var st := Run(Start(open), events);
             st.quit.Some? && st.lastAsked.Some? && st.lastAsked.value in st.open && l in st.open
    ensures
      var st := Run(Start(open), events);
      var asking := st.lastAsked.value;
      var st' := Next(st, Destroyed(l));
      && (asking in st'.open && (st'.asked != st.asked || st'.ran != st.ran) <==> l != asking)
      && (asking in st'.open && st'.ran != st.ran <==>
            l != asking && forall w :: w in st.quit.value.remaining && w in st.open ==> w == l)
  {
    var st := Run(Start(open), events);
    var gone := st.(open := st.open - {l});
    AdvanceMovesOn(gone);
    AdvanceForcesNobody(gone);
  }

  /** A quit with two windows open: closing the second by hand exits while the first is still asked. */
  lemma ExitsWhileAsking(a: Window, b: Window)
    requires a != b
    ensures
      var st := Run(Start({a, b}), [Quits(Exit, [a, b]), Destroyed(b)]);
      st.ran == [Exit] && st.quit.None? && a in st.open && st.lastAsked == Some(a)
  {
    var start := Start({a, b});
    var events := [Quits(Exit, [a, b]), Destroyed(b)];
    assert events[..1] == [Quits(Exit, [a, b])] && events[..1][..0] == [];
    assert Run(start, []) == start;
    assert [a, b][0] == a && [a, b][1] == b;
    var asked := Next(start, events[0]);
    assert Run(start, events[..1]) == asked;
    assert asked.quit == Some(QuitState([b], Exit));
    AdvanceMovesOn(asked.(open := asked.open - {b}));
    AdvanceForcesNobody(asked.(open := asked.open - {b}));
    LastAskedStays(asked.(open := asked.open - {b}));
  }

  lemma {:induction false} LastAskedStays(st: State)
    ensures AdvanceQuit(st).asked == st.asked ==> AdvanceQuit(st).lastAsked == st.lastAsked
    ensures |AdvanceQuit(st).asked| >= |st.asked|
    decreases if st.quit.Some? then |st.quit.value.remaining| else 0
  {
    if st.quit.Some? && st.quit.value.remaining != [] && st.quit.value.remaining[0] !in st.open {
      LastAskedStays(st.(quit := Some(st.quit.value.(remaining := st.quit.value.remaining[1..])),
                         taken := st.taken + 1));
    }
  }
}
