/**
 `broadcastSessionState` of apps/server/api/sessions-ws.ts as a state machine. A broadcast runs
 without interruption from one `await` to the next; every such segment is one event here, and a run
 is any sequence of events, so broadcasts overlap in every possible way. The state is that of one
 session: sessions share the connections but neither counters nor frames.
 */
module Broadcast {
  import opened Wrappers

  type User = string

  /** The counters object of the session: `issued`, `claimed` and `inFlight`. */
  datatype Turns = Turns(issued: nat, claimed: nat, inFlight: nat)

  datatype Answer = Pending | Found(row: nat) | Missing | Failed

  /** Where a broadcast waits: for its row, or for the visibility of connection `conn`. */
  datatype Phase = Reading(answer: Answer) | Visiting(row: nat, conn: nat, verdicts: map<User, bool>)

  /**
   One running broadcast: the counters object it holds, its turn number, and, as history, the row
   version and the number of connections ever made when its event fired.
   */
  datatype Task = Task(counters: nat, mine: nat, since: nat, known: nat, phase: Phase)

  datatype Frame = Frame(conn: nat, event: nat, row: nat)

  /**
   History of the last broadcast that claimed the send: the event it answers, the row version and the
   connections at that event, the row it sends, the verdicts so far, up to which connection it got, and whether it
   ended in a failed visibility check.
   */
  datatype Claim = Claim(event: nat, since: nat, known: nat, row: nat, verdicts: map<User, bool>, visited: nat, broken: bool)

  /**
   Counters objects are named by number, so that a deleted and recreated entry of `broadcastTurns`
   (`current`) is a different object. Broadcasts are named by the number of the event that started
   them, connections in the order they were added. `version` counts the changes of the row. `log`
   holds the frames sent; `claim` and `newest`, the newest event whose read succeeded, are history.
   */
  datatype State = State(
    counters: map<nat, Turns>, current: Option<nat>, nextCounter: nat,
    tasks: map<nat, Task>, nextEvent: nat,
    users: map<nat, User>, open: set<nat>, nextConn: nat,
    version: nat, log: seq<Frame>, claim: Option<Claim>, newest: Option<nat>)

  datatype Event =
    | Fire(changed: bool)
    | DbAnswers(task: nat, found: bool, failed: bool)
    | ReadReturns(task: nat)
    | VerdictReturns(task: nat, verdict: Option<bool>)
    | Connect(user: User)
    | Disconnect(conn: nat)

  const Start := State(map[], None, 0, map[], 0, map[], {}, 0, 0, [], None, None)

  /** The least open connection at or after `from`, or `limit` when there is none. */
  function NextOpen(open: set<nat>, from: nat, limit: nat): (k: nat)
    requires from <= limit
    ensures from <= k <= limit && (k < limit ==> k in open)
    ensures forall j :: from <= j < k ==> j !in open
    decreases limit - from
  {
    if from == limit || from in open then from else NextOpen(open, from + 1, limit)
  }

  // -------- The segments of a broadcast

  /** The event fires: take the session's counters, make them if there are none, and take a number. */
  function FireStep(st: State, changed: bool): State
    requires st.current.Some? ==> st.current.value in st.counters
  {
    var known := st.current.Some?;
    var id := if known then st.current.value else st.nextCounter;
    var turns := if known then st.counters[id] else Turns(0, 0, 0);
    var version := st.version + (if changed then 1 else 0);
    st.(counters := st.counters[id := turns.(issued := turns.issued + 1, inFlight := turns.inFlight + 1)],
        current := Some(id),
        nextCounter := if known then st.nextCounter else st.nextCounter + 1,
        tasks := st.tasks[st.nextEvent := Task(id, turns.issued + 1, version, st.nextConn, Reading(Pending))],
        nextEvent := st.nextEvent + 1,
        version := version)
  }

  predicate Holds(st: State, t: nat) {
    t in st.tasks && st.tasks[t].counters in st.counters
  }

  /** The `finally` block: count out, and drop the counters when nobody is left. */
  function Finish(st: State, t: nat): State
    requires Holds(st, t)
  {
    var id := st.tasks[t].counters;
    var turns := st.counters[id];
    var left := if turns.inFlight == 0 then 0 else turns.inFlight - 1;
    st.(counters := st.counters[id := turns.(inFlight := left)],
        tasks := st.tasks - {t},
        current := if left == 0 && st.current == Some(id) then None else st.current)
  }

  function Moving(st: State, t: nat, k: nat): State
    requires Holds(st, t) && st.tasks[t].phase.Visiting? && st.claim.Some?
  {
    st.(claim := Some(st.claim.value.(visited := k)),
        tasks := st.tasks[t := st.tasks[t].(phase := st.tasks[t].phase.(conn := k))])
  }

  /** The loop over the connections goes on at `from`, or is over. */
  function VisitNext(st: State, t: nat, from: nat): State
    requires Holds(st, t) && st.tasks[t].phase.Visiting? && st.claim.Some? && from <= st.nextConn
  {
    var k := NextOpen(st.open, from, st.nextConn);
    if k == st.nextConn then Finish(Moving(st, t, k), t) else Moving(st, t, k)
  }

  function ReadStep(st: State, t: nat): State
    requires Holds(st, t) && st.tasks[t].phase.Reading?
  {
    var task := st.tasks[t];
    match task.phase.answer
    case Pending => st
    case Missing => Finish(st, t)
    case Failed => Finish(st, t)
    case Found(row) =>
      var seen := Seen(st, t);
      if task.mine < st.counters[task.counters].claimed then Finish(seen, t)
      else VisitNext(Claiming(seen, t, row), t, 0)
  }

  function Seen(st: State, t: nat): State {
    st.(newest := if st.newest.Some? && st.newest.value > t then st.newest else Some(t))
  }

  /** The broadcast takes the send over and starts with the first connection. */
  function Claiming(st: State, t: nat, row: nat): State
    requires Holds(st, t)
  {
    var task := st.tasks[t];
    st.(counters := st.counters[task.counters := st.counters[task.counters].(claimed := task.mine)],
        tasks := st.tasks[t := task.(phase := Visiting(row, 0, map[]))],
        claim := Some(Claim(t, task.since, task.known, row, map[], 0, false)))
  }

  predicate Waits(st: State, t: nat) {
    && Holds(st, t) && st.tasks[t].phase.Visiting? && st.claim.Some?
    && st.tasks[t].phase.conn in st.users && st.tasks[t].phase.conn < st.nextConn
  }

  /** `await verdict` is over: one answer per user, kept for the connections still to come. */
  function VerdictStep(st: State, t: nat, verdict: Option<bool>): State
    requires Waits(st, t)
  {
    var task := st.tasks[t];
    var user := st.users[task.phase.conn];
    var known := user in task.phase.verdicts;
    var superseded := st.counters[task.counters].claimed != task.mine;
    if !known && verdict.None? then
      Finish(if superseded then st else st.(claim := Some(st.claim.value.(broken := true))), t)
    else if superseded then Finish(st, t)
    else
      var visible := if known then task.phase.verdicts[user] else verdict.value;
      VisitNext(Answered(st, t, visible), t, task.phase.conn + 1)
  }

  /** The verdict is kept and the frame goes out if it may. */
  function Answered(st: State, t: nat, visible: bool): State
    requires Waits(st, t)
  {
    var task := st.tasks[t];
    var conn := task.phase.conn;
    var verdicts := task.phase.verdicts[st.users[conn] := visible];
    st.(log := if visible && conn in st.open then st.log + [Frame(conn, t, task.phase.row)] else st.log,
        claim := Some(st.claim.value.(verdicts := verdicts, visited := conn + 1)),
        tasks := st.tasks[t := task.(phase := Visiting(task.phase.row, conn + 1, verdicts))])
  }

  predicate Enabled(st: State, e: Event) {
    match e
    case Fire(_) => st.current.Some? ==> st.current.value in st.counters
    case DbAnswers(t, _, _) => t in st.tasks && st.tasks[t].phase == Reading(Pending)
    case ReadReturns(t) => Holds(st, t) && st.tasks[t].phase.Reading? && st.tasks[t].phase.answer != Pending
    case VerdictReturns(t, _) => Waits(st, t)
    case Connect(_) => true
    case Disconnect(k) => k in st.open
  }

  function Next(st: State, e: Event): State
    requires Enabled(st, e)
  {
    match e
    case Fire(changed) => FireStep(st, changed)
    case DbAnswers(t, found, failed) =>
      var answer := if failed then Failed else if found then Found(st.version) else Missing;
      st.(tasks := st.tasks[t := st.tasks[t].(phase := Reading(answer))])
    case ReadReturns(t) => ReadStep(st, t)
    case VerdictReturns(t, verdict) => VerdictStep(st, t, verdict)
    case Connect(user) =>
      st.(users := st.users[st.nextConn := user], open := st.open + {st.nextConn}, nextConn := st.nextConn + 1)
    case Disconnect(k) => st.(open := st.open - {k})
  }

  /** Any sequence of events; one that cannot happen is passed over. */
  function Run(st: State, events: seq<Event>): State
    decreases |events|
  {
    if events == [] then st
    else
      var before := Run(st, events[..|events| - 1]);
      var e := events[|events| - 1];
      if Enabled(before, e) then Next(before, e) else before
  }

  // -------- What every run keeps

  /** Every broadcast under way holds the counters the session has now, and they count it. */
  ghost predicate CountersInv(st: State) {
    && (st.current.Some? ==>
          && st.current.value in st.counters && st.current.value < st.nextCounter
          && st.counters[st.current.value].inFlight == |st.tasks|)
    && (st.current.None? ==> st.tasks == map[])
    && (forall t :: t in st.tasks ==> t < st.nextEvent && st.current == Some(st.tasks[t].counters))
  }

  /** Turn numbers follow the events, and the claimed number is that of the recorded claim. */
  ghost predicate TurnsInv(st: State)
    requires CountersInv(st)
  {
    && (forall t, u :: t in st.tasks && u in st.tasks && t < u ==> st.tasks[t].mine < st.tasks[u].mine)
    && (st.claim.Some? ==> st.claim.value.event < st.nextEvent)
    && (st.current.Some? ==>
          var turns := st.counters[st.current.value];
          && turns.claimed <= turns.issued
          && forall t :: t in st.tasks ==>
               && 1 <= st.tasks[t].mine <= turns.issued
               && (st.tasks[t].mine <= turns.claimed ==> st.claim.Some?)
               && (st.claim.Some? ==> (st.tasks[t].mine < turns.claimed <==> t < st.claim.value.event)
                                      && (st.tasks[t].mine == turns.claimed <==> t == st.claim.value.event))
               && (st.tasks[t].phase.Visiting? ==> st.tasks[t].mine <= turns.claimed))
  }

  ghost predicate ClaimInv(st: State) {
    && (forall t :: t in st.tasks ==>
          var task := st.tasks[t];
          && task.since <= st.version && task.known <= st.nextConn
          && (task.phase == Reading(Pending) || task.phase.Visiting? || !task.phase.answer.Found?
              || task.since <= task.phase.answer.row)
          && (st.claim.Some? && t == st.claim.value.event ==>
                && task.phase.Visiting?
                && task.phase.row == st.claim.value.row && task.phase.verdicts == st.claim.value.verdicts
                && task.phase.conn == st.claim.value.visited && !st.claim.value.broken))
    && (st.claim.Some? ==> st.claim.value.since <= st.claim.value.row)
    && st.newest == (if st.claim.Some? then Some(st.claim.value.event) else None)
  }

  ghost predicate ConnInv(st: State) {
    && (forall k :: k in st.open ==> k in st.users)
    && (forall k :: k in st.users ==> k < st.nextConn)
    && (st.claim.Some? ==> st.claim.value.visited <= st.nextConn && st.claim.value.known <= st.nextConn)
    && (st.claim.Some? && st.claim.value.event !in st.tasks && !st.claim.value.broken ==>
          st.claim.value.known <= st.claim.value.visited)
  }

  /** Two frames to one connection carry their events in order. */
  ghost predicate InOrder(log: seq<Frame>) {
    forall i, j :: 0 <= i < j < |log| && log[i].conn == log[j].conn ==> log[i].event < log[j].event
  }

  function LastFrame(log: seq<Frame>, k: nat): Option<Frame> {
    if log == [] then None
    else if log[|log| - 1].conn == k then Some(log[|log| - 1])
    else LastFrame(log[..|log| - 1], k)
  }

  ghost predicate LogInv(st: State)
    requires ConnInv(st)
  {
    && InOrder(st.log)
    && (forall f :: f in st.log ==> st.claim.Some?)
    && (st.claim.Some? ==>
          var claim := st.claim.value;
          && (forall f :: f in st.log ==> f.event <= claim.event && (f.event == claim.event ==> f.conn < claim.visited))
          && (forall k :: k in st.open && k < claim.visited ==>
                && st.users[k] in claim.verdicts
                && (claim.verdicts[st.users[k]] ==> LastFrame(st.log, k) == Some(Frame(k, claim.event, claim.row)))))
  }

  ghost predicate Inv(st: State) {
    CountersInv(st) && TurnsInv(st) && ClaimInv(st) && ConnInv(st) && LogInv(st)
  }

  /** `Inv` kept folded, so that a proof can hand it on without opening it. */
  ghost predicate Sound(st: State) {
    forall x {:trigger Inv(x)} :: x == st ==> Inv(x)
  }

  /** No broadcast waits for a connection the server does not know. */
  ghost predicate Ready(st: State) {
    forall t :: t in st.tasks && st.tasks[t].phase.Visiting? ==>
      st.tasks[t].phase.conn in st.users && st.tasks[t].phase.conn < st.nextConn
  }

  lemma FireTurns(st: State, changed: bool)
    requires CountersInv(st) && TurnsInv(st) && (st.current.Some? || st.tasks == map[])
    ensures CountersInv(FireStep(st, changed)) && TurnsInv(FireStep(st, changed))
  {
    var st' := FireStep(st, changed);
    assert |st'.tasks| == |st.tasks| + 1;
  }

  lemma FireKeeps(st: State, changed: bool)
    requires Inv(st)
    ensures Inv(FireStep(st, changed))
  {
    FireTurns(st, changed);
  }

  /** The last claimant may finish once it has been everywhere, or broken off. */
  lemma FinishKeeps(st: State, t: nat)
    requires Inv(st) && t in st.tasks
    requires st.claim.Some? && t == st.claim.value.event ==> st.claim.value.visited == st.nextConn
    ensures Inv(Finish(st, t))
  {
    assert |st.tasks - {t}| == |st.tasks| - 1;
  }

  lemma BreakKeeps(st: State, t: nat)
    requires Inv(st) && t in st.tasks && st.claim.Some? && t == st.claim.value.event
    ensures Inv(Finish(st.(claim := Some(st.claim.value.(broken := true))), t))
  {
    assert |st.tasks - {t}| == |st.tasks| - 1;
  }

  lemma ClaimKeeps(st: State, t: nat, row: nat)
    requires Inv(st) && t in st.tasks && st.tasks[t].phase == Reading(Found(row))
    requires st.tasks[t].mine >= st.counters[st.tasks[t].counters].claimed
    ensures Inv(Claiming(Seen(st, t), t, row))
  {
    ClaimKeepsCounters(st, t, row);
  }

  lemma ClaimKeepsCounters(st: State, t: nat, row: nat)
    requires Inv(st) && t in st.tasks && st.tasks[t].phase == Reading(Found(row))
    requires st.tasks[t].mine >= st.counters[st.tasks[t].counters].claimed
    ensures var st' := Claiming(Seen(st, t), t, row); CountersInv(st') && TurnsInv(st')
  {
    var st' := Claiming(Seen(st, t), t, row);
    assert |st'.tasks| == |st.tasks| by { assert st'.tasks.Keys == st.tasks.Keys; }
  }

  lemma AppendInOrder(log: seq<Frame>, f: Frame)
    requires InOrder(log) && forall g :: g in log && g.conn == f.conn ==> g.event < f.event
    ensures InOrder(log + [f])
  {
  }

  lemma AppendLast(log: seq<Frame>, f: Frame, k: nat)
    ensures LastFrame(log + [f], k) == if k == f.conn then Some(f) else LastFrame(log, k)
  {
    assert (log + [f])[..|log|] == log;
  }

  /** `st` waits for the verdict on the claimant's next connection. */
  ghost predicate Asking(st: State, t: nat, visible: bool) {
    && Waits(st, t)
    && st.claim.value.event == t && st.claim.value.visited == st.tasks[t].phase.conn
    && st.claim.value.row == st.tasks[t].phase.row && st.claim.value.verdicts == st.tasks[t].phase.verdicts
    && (st.users[st.tasks[t].phase.conn] in st.tasks[t].phase.verdicts ==>
          st.tasks[t].phase.verdicts[st.users[st.tasks[t].phase.conn]] == visible)
  }

  lemma AnswerLog(st: State, t: nat, visible: bool)
    requires ConnInv(st) && LogInv(st) && Asking(st, t, visible)
    ensures ConnInv(Answered(st, t, visible)) && LogInv(Answered(st, t, visible))
  {
    var st' := Answered(st, t, visible);
    var f := Frame(st.tasks[t].phase.conn, t, st.tasks[t].phase.row);
    if visible && f.conn in st.open {
      AppendInOrder(st.log, f);
      forall k | k in st.open
        ensures LastFrame(st'.log, k) == if k == f.conn then Some(f) else LastFrame(st.log, k)
      {
        AppendLast(st.log, f, k);
      }
    }
  }

  lemma AnswerCounters(st: State, t: nat, visible: bool)
    requires CountersInv(st) && TurnsInv(st) && ClaimInv(st) && Asking(st, t, visible)
    ensures CountersInv(Answered(st, t, visible)) && TurnsInv(Answered(st, t, visible))
    ensures ClaimInv(Answered(st, t, visible))
  {
    assert |Answered(st, t, visible).tasks| == |st.tasks|;
  }

  lemma AnswerKeeps(st: State, t: nat, visible: bool)
    requires Inv(st) && Asking(st, t, visible)
    ensures Inv(Answered(st, t, visible))
  {
    AnswerLog(st, t, visible);
    AnswerCounters(st, t, visible);
  }

  lemma VisitKeeps(st: State, t: nat, from: nat)
    requires Inv(st) && t in st.tasks && st.claim.Some? && st.claim.value.event == t
    requires from == st.claim.value.visited
    ensures Inv(VisitNext(st, t, from))
  {
    var k := NextOpen(st.open, from, st.nextConn);
    MovingKeeps(st, t, k);
    if k == st.nextConn {
      FinishKeeps(Moving(st, t, k), t);
    }
  }

  lemma MovingKeeps(st: State, t: nat, k: nat)
    requires Inv(st) && t in st.tasks && st.claim.Some? && st.claim.value.event == t
    requires st.claim.value.visited <= k <= st.nextConn
    requires forall o :: st.claim.value.visited <= o < k ==> o !in st.open
    ensures Inv(Moving(st, t, k))
  {
    MovingCounters(st, t, k);
  }

  lemma MovingCounters(st: State, t: nat, k: nat)
    requires CountersInv(st) && TurnsInv(st) && Holds(st, t) && st.tasks[t].phase.Visiting? && st.claim.Some?
    ensures CountersInv(Moving(st, t, k)) && TurnsInv(Moving(st, t, k))
  {
    assert |Moving(st, t, k).tasks| == |st.tasks| by { assert Moving(st, t, k).tasks.Keys == st.tasks.Keys; }
  }

  lemma FoundKeeps(st: State, t: nat, row: nat)
    requires Inv(st) && t in st.tasks && st.tasks[t].phase == Reading(Found(row))
    ensures Inv(ReadStep(st, t))
  {
    if st.tasks[t].mine < st.counters[st.tasks[t].counters].claimed {
      assert Seen(st, t) == st;
      FinishKeeps(st, t);
    } else {
      ClaimKeeps(st, t, row);
      VisitKeeps(Claiming(Seen(st, t), t, row), t, 0);
    }
  }

  lemma ReadKeeps(st: State, t: nat)
    requires Inv(st) && t in st.tasks && st.tasks[t].phase.Reading? && st.tasks[t].phase.answer != Pending
    ensures Inv(ReadStep(st, t))
  {
    if st.tasks[t].phase.answer.Found? {
      FoundKeeps(st, t, st.tasks[t].phase.answer.row);
    } else {
      FinishKeeps(st, t);
    }
  }

  lemma Claimant(st: State, t: nat)
    requires CountersInv(st) && TurnsInv(st) && t in st.tasks && st.claim.Some?
    ensures (st.counters[st.tasks[t].counters].claimed == st.tasks[t].mine) == (st.claim.value.event == t)
  {
  }

  lemma AnswerSound(st: State, t: nat, visible: bool)
    requires Sound(st) && Asking(st, t, visible)
    ensures Sound(Answered(st, t, visible))
  {
    assert Inv(st);
    AnswerKeeps(st, t, visible);
  }

  lemma VisitSound(st: State, t: nat, from: nat)
    requires Sound(st) && Holds(st, t) && st.tasks[t].phase.Visiting? && st.claim.Some? && from <= st.nextConn
    requires st.claim.value.event == t && st.claim.value.visited == from
    ensures Sound(VisitNext(st, t, from))
  {
    assert Inv(st);
    VisitKeeps(st, t, from);
  }

  lemma ClaimantAsks(st: State, t: nat, visible: bool)
    requires ClaimInv(st) && Waits(st, t) && st.claim.value.event == t
    requires st.users[st.tasks[t].phase.conn] in st.tasks[t].phase.verdicts ==>
               st.tasks[t].phase.verdicts[st.users[st.tasks[t].phase.conn]] == visible
    ensures Asking(st, t, visible)
  {
  }

  lemma ClaimantSends(st: State, t: nat, visible: bool)
    requires Sound(st) && Asking(st, t, visible)
    ensures Sound(VisitNext(Answered(st, t, visible), t, st.tasks[t].phase.conn + 1))
  {
    AnswerSound(st, t, visible);
    VisitSound(Answered(st, t, visible), t, st.tasks[t].phase.conn + 1);
  }

  lemma ClaimantBreaks(st: State, t: nat)
    requires Sound(st) && Holds(st, t) && st.claim.Some? && st.claim.value.event == t
    ensures Sound(Finish(st.(claim := Some(st.claim.value.(broken := true))), t))
  {
    assert Inv(st);
    BreakKeeps(st, t);
  }

  lemma SupersededLeaves(st: State, t: nat)
    requires Sound(st) && Holds(st, t) && st.claim.Some? && st.claim.value.event != t
    ensures Sound(Finish(st, t))
  {
    assert Inv(st);
    FinishKeeps(st, t);
  }

  lemma VerdictSound(st: State, t: nat, verdict: Option<bool>)
    requires Sound(st) && Waits(st, t)
    requires (st.counters[st.tasks[t].counters].claimed == st.tasks[t].mine) == (st.claim.value.event == t)
    requires st.claim.value.event == t ==> ClaimInv(st)
    ensures Sound(VerdictStep(st, t, verdict))
  {
    var task := st.tasks[t];
    var user := st.users[task.phase.conn];
    if st.claim.value.event != t {
      SupersededLeaves(st, t);
    } else if user !in task.phase.verdicts && verdict.None? {
      ClaimantBreaks(st, t);
    } else {
      var visible := if user in task.phase.verdicts then task.phase.verdicts[user] else verdict.value;
      ClaimantAsks(st, t, visible);
      ClaimantSends(st, t, visible);
    }
  }

  lemma VerdictKeeps(st: State, t: nat, verdict: Option<bool>)
    requires Inv(st) && Waits(st, t)
    ensures Sound(VerdictStep(st, t, verdict))
  {
    Claimant(st, t);
    VerdictSound(st, t, verdict);
  }

  lemma DbAnswersKeeps(st: State, t: nat, found: bool, failed: bool)
    requires Inv(st) && Enabled(st, DbAnswers(t, found, failed))
    ensures Inv(Next(st, DbAnswers(t, found, failed)))
  {
    DbAnswersCounters(st, t, found, failed);
  }

  lemma DbAnswersCounters(st: State, t: nat, found: bool, failed: bool)
    requires CountersInv(st) && TurnsInv(st) && Enabled(st, DbAnswers(t, found, failed))
    ensures var st' := Next(st, DbAnswers(t, found, failed)); CountersInv(st') && TurnsInv(st')
  {
    PhaseOnly(st, Next(st, DbAnswers(t, found, failed)).tasks);
  }

  /** Tasks that only move to another phase, none to the connections, keep their numbers. */
  lemma PhaseOnly(st: State, tasks: map<nat, Task>)
    requires CountersInv(st) && TurnsInv(st) && tasks.Keys == st.tasks.Keys
    requires forall t :: t in tasks ==> tasks[t].mine == st.tasks[t].mine && tasks[t].counters == st.tasks[t].counters
    requires forall t :: t in tasks && tasks[t].phase.Visiting? ==> st.tasks[t].phase.Visiting?
    ensures CountersInv(st.(tasks := tasks)) && TurnsInv(st.(tasks := tasks))
  {
  }

  lemma ConnectKeeps(st: State, user: User)
    requires Inv(st)
    ensures Inv(Next(st, Connect(user)))
  {
  }

  lemma DisconnectKeeps(st: State, k: nat)
    requires Inv(st) && k in st.open
    ensures Inv(Next(st, Disconnect(k)))
  {
  }

  lemma ReadyKept(st: State, e: Event)
    requires ConnInv(st) && Ready(st) && Enabled(st, e)
    ensures Ready(Next(st, e))
  {
  }

  /** One event keeps everything. */
  lemma NextKeeps(st: State, e: Event)
    requires Sound(st) && Enabled(st, e)
    ensures Sound(Next(st, e))
  {
    assert Inv(st);
    match e
    case Fire(changed) => FireKeeps(st, changed);
    case ReadReturns(t) => ReadKeeps(st, t);
    case VerdictReturns(t, verdict) => VerdictKeeps(st, t, verdict);
    case DbAnswers(t, found, failed) => DbAnswersKeeps(st, t, found, failed);
    case Connect(user) => ConnectKeeps(st, user);
    case Disconnect(k) => DisconnectKeeps(st, k);
  }

  lemma {:induction false} RunSound(events: seq<Event>)
    ensures Sound(Run(Start, events)) && Ready(Run(Start, events))
    decreases |events|
  {
    if events == [] {
      assert Inv(Start);
    } else {
      RunSound(events[..|events| - 1]);
      var before, e := Run(Start, events[..|events| - 1]), events[|events| - 1];
      assert Inv(before);
      if Enabled(before, e) {
        NextKeeps(before, e);
        ReadyKept(before, e);
      }
    }
  }

  lemma RunKeeps(events: seq<Event>)
    ensures Inv(Run(Start, events)) && Ready(Run(Start, events))
  {
    RunSound(events);
    assert Inv(Run(Start, events));
  }

  // -------- The theorems

  /** Each connection's frames carry strictly increasing event numbers, across all broadcasts ever. */
  lemma FramesFollowEvents(events: seq<Event>, i: nat, j: nat)
    requires i < j < |Run(Start, events).log|
    requires Run(Start, events).log[i].conn == Run(Start, events).log[j].conn
    ensures Run(Start, events).log[i].event < Run(Start, events).log[j].event
  {
    RunKeeps(events);
  }

  /** Dropping the counters never gives two broadcasts under way different counters, or one number twice. */
  lemma OneNumbering(events: seq<Event>, t: nat, u: nat)
    requires t in Run(Start, events).tasks && u in Run(Start, events).tasks && t < u
    ensures Run(Start, events).tasks[t].counters == Run(Start, events).tasks[u].counters
    ensures Run(Start, events).tasks[t].mine < Run(Start, events).tasks[u].mine
  {
    RunKeeps(events);
  }

  /**
   Newest broadcast wins. When nothing is under way and the last visibility check did not fail, the
   last claim is that of the newest event whose read succeeded, its row is at least as new as that
   event, and it was the last broadcast to every connection it came to that is still open and may see the
   session. It came to every connection that was there at the event.
   */
  lemma NewestWins(events: seq<Event>, k: nat)
    requires var st := Run(Start, events);
      st.tasks == map[] && st.claim.Some? && !st.claim.value.broken && k in st.open && k < st.claim.value.visited
    ensures var st := Run(Start, events); var claim := st.claim.value;
      && st.newest == Some(claim.event) && claim.since <= claim.row && claim.known <= claim.visited
      && k in st.users && st.users[k] in claim.verdicts
      && (claim.verdicts[st.users[k]] ==> LastFrame(st.log, k) == Some(Frame(k, claim.event, claim.row)))
  {
    RunKeeps(events);
  }

  /** No broadcast under way is ever stuck on another one: its own next event can always happen. */
  lemma NoneWaitsForAnother(events: seq<Event>, t: nat)
    requires t in Run(Start, events).tasks
    ensures var st := Run(Start, events);
      Enabled(st, DbAnswers(t, true, false)) || Enabled(st, ReadReturns(t)) || Enabled(st, VerdictReturns(t, None))
  {
    RunKeeps(events);
  }

  lemma RunStep(events: seq<Event>, e: Event)
    ensures Run(Start, events + [e]) ==
            var before := Run(Start, events); if Enabled(before, e) then Next(before, e) else before
  {
    assert (events + [e])[..|events|] == events;
  }
}
