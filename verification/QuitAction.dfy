/** Which action a quit sequence of apps/desktop/src/lib.rs runs: that of the request which began it. */
module QuitAction {
  import opened Wrappers
  import opened Quit

  /** The event begins a sequence, with this action. */
  ghost function Begins(st: State, e: Event): Option<Action> {
    if !Enabled(st, e) || st.quit.Some? then None
    else match e
      case Quits(action, _) => Some(action)
      case ExitRequested(_) => if st.open != {} then Some(Exit) else None
      case _ => None
  }

  /** The action asked for by the request that began the latest sequence. */
  ghost function Requested(open: set<Window>, events: seq<Event>): Option<Action>
    decreases |events|
  {
    if events == [] then None
    else
      var rest, e := events[..|events| - 1], events[|events| - 1];
      var begun := Begins(Run(Start(open), rest), e);
      if begun.Some? then begun else Requested(open, rest)
  }

  ghost predicate Runs(st: State, action: Option<Action>) {
    && (st.quit.Some? ==> action == Some(st.quit.value.action))
    && (st.ran != [] ==> action.Some? && st.ran == [action.value])
  }

  lemma {:induction false} AdvanceRuns(st: State, action: Action)
    requires st.quit.Some? ==> st.quit.value.action == action && st.ran == []
    requires st.quit.None? && st.ran != [] ==> st.ran == [action]
    ensures Runs(AdvanceQuit(st), if st.quit.None? && st.ran == [] then None else Some(action))
    decreases if st.quit.Some? then |st.quit.value.remaining| else 0
  {
    if st.quit.Some? && st.quit.value.remaining != [] && st.quit.value.remaining[0] !in st.open {
      AdvanceRuns(st.(quit := Some(st.quit.value.(remaining := st.quit.value.remaining[1..])), taken := st.taken + 1),
                  action);
    }
  }

  lemma BeginRuns(st: State, action: Action, order: seq<Window>)
    requires st.quit.None?
    ensures Runs(BeginQuit(st, action, order), Some(action))
  {
    AdvanceRuns(st.(quit := Some(QuitState(order, action)), queue := order, taken := 0, asked := [], ran := [],
                    declined := false, newcomers := {}), action);
  }

  lemma NextRuns(st: State, e: Event, action: Option<Action>)
    requires Inv(st) && Enabled(st, e) && Runs(st, action)
    ensures Runs(Next(st, e), if Begins(st, e).Some? then Begins(st, e) else action)
  {
    match e
    case Quits(a, order) => if st.quit.None? { BeginRuns(st, a, order); }
    case ExitRequested(order) => if st.quit.None? && st.open != {} { BeginRuns(st, Exit, order); }
    case Destroyed(l) =>
      if action.Some? {
        AdvanceRuns(st.(open := st.open - {l}), action.value);
      }
    case _ =>
  }

  lemma {:induction false} RunRuns(open: set<Window>, events: seq<Event>)
    ensures Runs(Run(Start(open), events), Requested(open, events))
    decreases |events|
  {
    if events != [] {
      var rest, e := events[..|events| - 1], events[|events| - 1];
      RunRuns(open, rest);
      RunKeeps(open, rest);
      if Enabled(Run(Start(open), rest), e) {
        NextRuns(Run(Start(open), rest), e, Requested(open, rest));
      }
    }
  }

  // -------- Who came after the request

  /** The windows that opened since the latest sequence began; before the first one, all there are. */
  ghost function OpenedSince(open: set<Window>, events: seq<Event>): set<Window>
    decreases |events|
  {
    if events == [] then open
    else
      var rest, e := events[..|events| - 1], events[|events| - 1];
      if Begins(Run(Start(open), rest), e).Some? then {}
      else if e.Opens? && e.window !in Run(Start(open), rest).open then OpenedSince(open, rest) + {e.window}
      else OpenedSince(open, rest)
  }

  lemma NextNewcomers(st: State, e: Event)
    requires Enabled(st, e)
    ensures Next(st, e).newcomers ==
            if Begins(st, e).Some? then {}
            else if e.Opens? && e.window !in st.open then st.newcomers + {e.window} else st.newcomers
  {
    match e
    case Quits(action, order) => BeginNewcomers(st, action, order);
    case ExitRequested(order) => BeginNewcomers(st, Exit, order);
    case Destroyed(l) => AdvanceForcesNobody(st.(open := st.open - {l}));
    case _ =>
  }

  lemma BeginNewcomers(st: State, action: Action, order: seq<Window>)
    ensures BeginQuit(st, action, order).newcomers == if st.quit.None? then {} else st.newcomers
    ensures st.quit.None? ==> BeginQuit(st, action, order).queue == order
  {
    if st.quit.None? {
      AdvanceForcesNobody(st.(quit := Some(QuitState(order, action)), queue := order, taken := 0, asked := [], ran := [],
                              declined := false, newcomers := {}));
    }
  }

  lemma {:induction false} NewcomersAre(open: set<Window>, events: seq<Event>)
    ensures Run(Start(open), events).newcomers == OpenedSince(open, events)
    decreases |events|
  {
    if events != [] {
      var rest, e := events[..|events| - 1], events[|events| - 1];
      NewcomersAre(open, rest);
      if Enabled(Run(Start(open), rest), e) {
        NextNewcomers(Run(Start(open), rest), e);
      }
    }
  }

  /** Once the action ran, every window there that has not opened since the request was asked. */
  lemma OldWindowsWereAsked(open: set<Window>, events: seq<Event>, l: Window)
    requires var st := Run(Start(open), events); st.ran != [] && l in st.open && l !in OpenedSince(open, events)
    ensures var st := Run(Start(open), events);
      exists k :: 0 <= k < |st.asked| && st.asked[k] < |st.queue| && st.queue[st.asked[k]] == l
  {
    NewcomersAre(open, events);
    NobodyPassedOver(open, events, l);
  }

  /** A sequence runs the action of the request that began it: a restart stays a restart, an exit an exit. */
  lemma RunsWhatWasRequested(open: set<Window>, events: seq<Event>)
    requires Run(Start(open), events).ran != []
    ensures Requested(open, events).Some? && Run(Start(open), events).ran == [Requested(open, events).value]
  {
    RunRuns(open, events);
  }
}
