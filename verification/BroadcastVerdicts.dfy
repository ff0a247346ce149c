/**
 Who is sent what, told from the events alone: a broadcast asks once per user whether he may see the
 session, and its frames go to the connections of those for whom the answer was yes, with the row it read.
 */
module BroadcastVerdicts {
  import opened Wrappers
  import opened Broadcast
  import opened BroadcastRows

  /** The answer about `u` arrives at broadcast `t` with this event. */
  predicate TellsOf(st: State, e: Event, t: nat, u: User) {
    e.VerdictReturns? && e.task == t && Enabled(st, e) && st.users[st.tasks[t].phase.conn] == u
  }

  /** The first answer that broadcast `t` was given about user `u`. */
  function Heard(events: seq<Event>, t: nat, u: User): Option<bool> {
    if events == [] then None
    else
      var rest, e := events[..|events| - 1], events[|events| - 1];
      if Heard(rest, t, u).Some? || !TellsOf(Run(Start, rest), e, t, u) then Heard(rest, t, u) else e.verdict
  }

  lemma HeardOne(events: seq<Event>, e: Event, t: nat, u: User)
    ensures Heard(events + [e], t, u) ==
            if Heard(events, t, u).Some? || !TellsOf(Run(Start, events), e, t, u) then Heard(events, t, u) else e.verdict
  {
    assert (events + [e])[..|events|] == events;
  }

  // -------- What one event tells

  /** `after` is `before` and what `e` tells broadcast `t` about a user it has not asked about yet. */
  ghost predicate Learns(st: State, e: Event, t: nat, before: map<User, bool>, after: map<User, bool>) {
    after ==
    if e.VerdictReturns? && e.task == t && Enabled(st, e) && e.verdict.Some?
       && st.users[st.tasks[t].phase.conn] !in before
    then before[st.users[st.tasks[t].phase.conn] := e.verdict.value]
    else before
  }

  function VerdictsOf(p: Phase): map<User, bool> {
    if p.Visiting? then p.verdicts else map[]
  }

  lemma TaskLearns(st: State, e: Event, t: nat)
    requires Inv(st) && Enabled(st, e) && t in st.tasks && t in Next(st, e).tasks
    ensures Learns(st, e, t, VerdictsOf(st.tasks[t].phase), VerdictsOf(Next(st, e).tasks[t].phase))
  {
    match e
    case VerdictReturns(u, verdict) => VerdictLearns(st, u, verdict, t);
    case ReadReturns(u) => ReadLearns(st, u, t);
    case _ =>
  }

  lemma ReadLearns(st: State, u: nat, t: nat)
    requires Inv(st) && Enabled(st, ReadReturns(u)) && t in st.tasks && t in ReadStep(st, u).tasks
    ensures VerdictsOf(ReadStep(st, u).tasks[t].phase) == VerdictsOf(st.tasks[t].phase)
  {
  }

  lemma VerdictLearns(st: State, u: nat, verdict: Option<bool>, t: nat)
    requires Inv(st) && Waits(st, u) && t in st.tasks && t in VerdictStep(st, u, verdict).tasks
    ensures Learns(st, VerdictReturns(u, verdict), t, VerdictsOf(st.tasks[t].phase),
                   VerdictsOf(VerdictStep(st, u, verdict).tasks[t].phase))
  {
  }

  lemma TasksStart(st: State, e: Event, t: nat)
    requires Inv(st) && Enabled(st, e) && t in Next(st, e).tasks && t !in st.tasks
    ensures t == st.nextEvent && Next(st, e).tasks[t].phase.Reading?
  {
  }

  /** A claim goes on, or is that of a broadcast that has asked nobody yet. */
  ghost predicate ClaimGoesOn(st: State, e: Event, claim: Claim) {
    || (st.claim.Some? && claim.event == st.claim.value.event
        && Learns(st, e, claim.event, st.claim.value.verdicts, claim.verdicts))
    || (e.ReadReturns? && claim.event == e.task && e.task in st.tasks && st.tasks[e.task].phase.Reading?
        && claim.verdicts == map[])
  }

  lemma ClaimLearns(st: State, e: Event)
    requires Inv(st) && Enabled(st, e) && Next(st, e).claim.Some?
    ensures ClaimGoesOn(st, e, Next(st, e).claim.value)
  {
    match e
    case VerdictReturns(t, verdict) => ClaimHears(st, t, verdict);
    case ReadReturns(t) => ClaimReads(st, t);
    case _ =>
  }

  lemma ClaimReads(st: State, t: nat)
    requires Inv(st) && Enabled(st, ReadReturns(t)) && ReadStep(st, t).claim.Some?
    ensures ClaimGoesOn(st, ReadReturns(t), ReadStep(st, t).claim.value)
  {
  }

  lemma ClaimHears(st: State, t: nat, verdict: Option<bool>)
    requires Inv(st) && Waits(st, t)
    ensures VerdictStep(st, t, verdict).claim.Some?
    ensures ClaimGoesOn(st, VerdictReturns(t, verdict), VerdictStep(st, t, verdict).claim.value)
  {
    Claimant(st, t);
  }

  /** One frame at most, to the open connection the broadcast waited for, if its user may see the session. */
  ghost predicate Sends(st: State, e: Event, f: Frame) {
    && e.VerdictReturns? && Enabled(st, e) && f.event == e.task && f.conn == st.tasks[f.event].phase.conn
    && f.conn in st.open && RowOf(st.tasks[f.event].phase) == Some(f.row)
    && var asked := VerdictsOf(st.tasks[f.event].phase);
       var user := st.users[f.conn];
       (if user in asked then asked[user] else e.verdict == Some(true))
  }

  lemma EventSends(st: State, e: Event)
    requires Inv(st) && Enabled(st, e)
    ensures var log' := Next(st, e).log;
      log' == st.log || (|log'| == |st.log| + 1 && log' == st.log + [log'[|st.log|]] && Sends(st, e, log'[|st.log|]))
  {
    match e
    case VerdictReturns(t, verdict) => VerdictSends(st, t, verdict);
    case _ =>
  }

  lemma VerdictSends(st: State, t: nat, verdict: Option<bool>)
    requires Inv(st) && Waits(st, t)
    ensures var log' := VerdictStep(st, t, verdict).log;
      || log' == st.log
      || (|log'| == |st.log| + 1 && log' == st.log + [log'[|st.log|]]
          && Sends(st, VerdictReturns(t, verdict), log'[|st.log|]))
  {
  }

  lemma UsersStay(st: State, e: Event, k: nat)
    requires Inv(st) && Enabled(st, e) && k in st.users
    ensures k in Next(st, e).users && Next(st, e).users[k] == st.users[k]
  {
  }

  // -------- What every run keeps

  ghost predicate Matches(events: seq<Event>, t: nat, verdicts: map<User, bool>) {
    forall u :: Heard(events, t, u) == if u in verdicts then Some(verdicts[u]) else None
  }

  lemma MatchesOne(events: seq<Event>, e: Event, t: nat, before: map<User, bool>, after: map<User, bool>)
    requires Matches(events, t, before) && Learns(Run(Start, events), e, t, before, after)
    ensures Matches(events + [e], t, after)
  {
    forall u ensures Heard(events + [e], t, u) == if u in after then Some(after[u]) else None {
      HeardOne(events, e, t, u);
    }
  }

  /** Verdicts are kept as they were given. */
  ghost predicate Faithful(events: seq<Event>) {
    var st := Run(Start, events);
    && (forall t :: t in st.tasks ==> Matches(events, t, VerdictsOf(st.tasks[t].phase)))
    && (forall t: nat :: t >= st.nextEvent ==> Matches(events, t, map[]))
    && (st.claim.Some? ==> Matches(events, st.claim.value.event, st.claim.value.verdicts))
  }

  lemma FaithfulTask(events: seq<Event>, e: Event, t: nat)
    requires Faithful(events) && Inv(Run(Start, events)) && Enabled(Run(Start, events), e)
    requires t in Next(Run(Start, events), e).tasks
    ensures Matches(events + [e], t, VerdictsOf(Next(Run(Start, events), e).tasks[t].phase))
  {
    var st := Run(Start, events);
    if t in st.tasks {
      TaskLearns(st, e, t);
      MatchesOne(events, e, t, VerdictsOf(st.tasks[t].phase), VerdictsOf(Next(st, e).tasks[t].phase));
    } else {
      TasksStart(st, e, t);
      MatchesOne(events, e, t, map[], map[]);
    }
  }

  lemma FaithfulClaim(events: seq<Event>, e: Event)
    requires Faithful(events) && Inv(Run(Start, events)) && Enabled(Run(Start, events), e)
    requires Next(Run(Start, events), e).claim.Some?
    ensures var claim' := Next(Run(Start, events), e).claim.value; Matches(events + [e], claim'.event, claim'.verdicts)
  {
    var st := Run(Start, events);
    var claim' := Next(st, e).claim.value;
    ClaimLearns(st, e);
    if st.claim.Some? && claim'.event == st.claim.value.event {
      MatchesOne(events, e, claim'.event, st.claim.value.verdicts, claim'.verdicts);
    } else {
      MatchesOne(events, e, claim'.event, map[], map[]);
    }
  }

  lemma FaithfulOne(events: seq<Event>, e: Event)
    requires Faithful(events) && Inv(Run(Start, events)) && Enabled(Run(Start, events), e)
    ensures Faithful(events + [e])
  {
    RunStep(events, e);
    var st, st' := Run(Start, events), Run(Start, events + [e]);
    forall t | t in st'.tasks ensures Matches(events + [e], t, VerdictsOf(st'.tasks[t].phase)) {
      FaithfulTask(events, e, t);
    }
    forall t: nat | t >= st'.nextEvent ensures Matches(events + [e], t, map[]) {
      MatchesOne(events, e, t, map[], map[]);
    }
    if st'.claim.Some? {
      FaithfulClaim(events, e);
    }
  }

  lemma FaithfulStill(events: seq<Event>, e: Event)
    requires Faithful(events) && !Enabled(Run(Start, events), e)
    ensures Faithful(events + [e])
  {
    RunStep(events, e);
    var st := Run(Start, events);
    forall t | t in st.tasks ensures Matches(events + [e], t, VerdictsOf(st.tasks[t].phase)) {
      MatchesOne(events, e, t, VerdictsOf(st.tasks[t].phase), VerdictsOf(st.tasks[t].phase));
    }
    forall t: nat | t >= st.nextEvent ensures Matches(events + [e], t, map[]) {
      MatchesOne(events, e, t, map[], map[]);
    }
    if st.claim.Some? {
      MatchesOne(events, e, st.claim.value.event, st.claim.value.verdicts, st.claim.value.verdicts);
    }
  }

  lemma {:induction false} AlwaysFaithful(events: seq<Event>)
    ensures Faithful(events)
    decreases |events|
  {
    if events != [] {
      var rest, e := events[..|events| - 1], events[|events| - 1];
      assert events == rest + [e];
      AlwaysFaithful(rest);
      RunKeeps(rest);
      if Enabled(Run(Start, rest), e) {
        FaithfulOne(rest, e);
      } else {
        FaithfulStill(rest, e);
      }
    }
  }

  // -------- The theorems

  /** The user of the frame's connection was found allowed by its broadcast, which had read the row. */
  ghost predicate Due(events: seq<Event>, f: Frame) {
    var users := Run(Start, events).users;
    f.conn in users && Heard(events, f.event, users[f.conn]) == Some(true) && ReadBy(events, f.event, f.row)
  }

  lemma DueStays(events: seq<Event>, e: Event, f: Frame)
    requires Due(events, f)
    ensures Due(events + [e], f)
  {
    var st := Run(Start, events);
    RunKeeps(events);
    RunStep(events, e);
    HeardOne(events, e, f.event, st.users[f.conn]);
    ReadByStays(events, e, f.event, f.row);
    if Enabled(st, e) {
      UsersStay(st, e, f.conn);
    }
  }

  lemma SentIsDue(events: seq<Event>, e: Event, f: Frame)
    requires Enabled(Run(Start, events), e) && Inv(Run(Start, events)) && Sends(Run(Start, events), e, f)
    ensures Due(events + [e], f)
  {
    var st := Run(Start, events);
    AlwaysFaithful(events);
    assert Matches(events, f.event, VerdictsOf(st.tasks[f.event].phase));
    RunStep(events, e);
    HeardOne(events, e, f.event, st.users[f.conn]);
    UsersStay(st, e, f.conn);
    TaskRowRead(events, f.event);
    ReadByStays(events, e, f.event, f.row);
  }

  /**
   Nobody is sent a session he may not see, in any run: a frame goes only to a connection for whose user the
   broadcast was told `true`, and it carries the row that this broadcast read.
   */
  lemma {:induction false} FramesAreDue(events: seq<Event>, f: Frame)
    requires f in Run(Start, events).log
    ensures Due(events, f)
    decreases |events|
  {
    var rest, e := events[..|events| - 1], events[|events| - 1];
    assert events == rest + [e];
    RunKeeps(rest);
    if Enabled(Run(Start, rest), e) {
      EventSends(Run(Start, rest), e);
    }
    if f in Run(Start, rest).log {
      FramesAreDue(rest, f);
      DueStays(rest, e, f);
    } else {
      SentIsDue(rest, e, f);
    }
  }

  /** Every event sends one frame at most, and only to a connection that is open at that moment. */
  lemma SentWhileOpen(events: seq<Event>, e: Event)
    requires Run(Start, events + [e]).log != Run(Start, events).log
    ensures var log, log' := Run(Start, events).log, Run(Start, events + [e]).log;
      |log'| == |log| + 1 && log <= log' && log'[|log|].conn in Run(Start, events).open
  {
    RunStep(events, e);
    RunKeeps(events);
    EventSends(Run(Start, events), e);
  }

  /** The read of broadcast `t` was answered with a row. */
  ghost predicate Found(events: seq<Event>, t: nat) {
    exists row :: ReadBy(events, t, row)
  }

  /** A broadcast whose read was answered is still to take its row, or a claim is at least as new. */
  ghost predicate TakenUp(st: State, t: nat) {
    || (t in st.tasks && st.tasks[t].phase.Reading? && RowOf(st.tasks[t].phase).Some?)
    || (st.claim.Some? && t <= st.claim.value.event)
  }

  lemma TakenUpStays(st: State, e: Event, t: nat)
    requires Inv(st) && Enabled(st, e) && (TakenUp(st, t) || e == DbAnswers(t, true, false))
    ensures TakenUp(Next(st, e), t)
  {
    match e
    case ReadReturns(u) => ReadTakesUp(st, u, t);
    case VerdictReturns(u, verdict) => VerdictTakesUp(st, u, verdict, t);
    case _ =>
  }

  lemma VerdictTakesUp(st: State, u: nat, verdict: Option<bool>, t: nat)
    requires Inv(st) && Waits(st, u) && TakenUp(st, t)
    ensures TakenUp(VerdictStep(st, u, verdict), t)
  {
    Claimant(st, u);
  }

  lemma ReadTakesUp(st: State, u: nat, t: nat)
    requires Inv(st) && Enabled(st, ReadReturns(u)) && TakenUp(st, t)
    ensures TakenUp(ReadStep(st, u), t)
  {
  }

  lemma {:induction false} FoundIsTakenUp(events: seq<Event>, t: nat)
    requires Found(events, t)
    ensures TakenUp(Run(Start, events), t)
    decreases |events|
  {
    var row :| ReadBy(events, t, row);
    var i: nat :| AnsweredAt(events, t, i) && row == Changes(events[..i]);
    var rest, e := events[..|events| - 1], events[|events| - 1];
    var st := Run(Start, rest);
    RunKeeps(rest);
    if i < |events| - 1 {
      assert rest[..i] == events[..i];
      assert AnsweredAt(rest, t, i) && ReadBy(rest, t, row);
      FoundIsTakenUp(rest, t);
    } else {
      assert events[..i] == rest;
    }
    if Enabled(st, e) {
      TakenUpStays(st, e, t);
    }
  }

  /** Broadcast `t` was started by the event numbered `i`: the row version it answers and the connections there were. */
  ghost predicate FiredAt(events: seq<Event>, t: nat, since: nat, known: nat, i: nat) {
    && i < |events| && events[i].Fire? && Run(Start, events[..i]).nextEvent == t
    && since == Changes(events[..i + 1]) && known == Run(Start, events[..i]).nextConn
  }

  ghost predicate Fired(events: seq<Event>, t: nat, since: nat, known: nat) {
    exists i: nat :: FiredAt(events, t, since, known, i)
  }

  lemma FiredStays(events: seq<Event>, e: Event, t: nat, since: nat, known: nat)
    requires Fired(events, t, since, known)
    ensures Fired(events + [e], t, since, known)
  {
    var i: nat :| FiredAt(events, t, since, known, i);
    assert (events + [e])[..i] == events[..i] && (events + [e])[..i + 1] == events[..i + 1];
    assert FiredAt(events + [e], t, since, known, i);
  }

  predicate SameOrigin(a: Task, b: Task) {
    a.since == b.since && a.known == b.known
  }

  lemma TaskOrigin(st: State, e: Event, t: nat)
    requires Inv(st) && Enabled(st, e) && t in Next(st, e).tasks
    ensures var task := Next(st, e).tasks[t];
      || (t in st.tasks && SameOrigin(task, st.tasks[t]))
      || (e.Fire? && t == st.nextEvent && task.since == Next(st, e).version && task.known == st.nextConn)
  {
    match e
    case ReadReturns(u) => ReadOrigin(st, u, t);
    case VerdictReturns(u, verdict) => VerdictOrigin(st, u, verdict, t);
    case _ =>
  }

  lemma ReadOrigin(st: State, u: nat, t: nat)
    requires Inv(st) && Enabled(st, ReadReturns(u)) && t in ReadStep(st, u).tasks
    ensures t in st.tasks && SameOrigin(ReadStep(st, u).tasks[t], st.tasks[t])
  {
  }

  lemma VerdictOrigin(st: State, u: nat, verdict: Option<bool>, t: nat)
    requires Inv(st) && Waits(st, u) && t in VerdictStep(st, u, verdict).tasks
    ensures t in st.tasks && SameOrigin(VerdictStep(st, u, verdict).tasks[t], st.tasks[t])
  {
  }

  ghost predicate ClaimFrom(st: State, claim: Claim) {
    || (st.claim.Some? && claim.event == st.claim.value.event && claim.since == st.claim.value.since
        && claim.known == st.claim.value.known)
    || (claim.event in st.tasks && claim.since == st.tasks[claim.event].since
        && claim.known == st.tasks[claim.event].known)
  }

  lemma ClaimOrigin(st: State, e: Event)
    requires Inv(st) && Enabled(st, e) && Next(st, e).claim.Some?
    ensures ClaimFrom(st, Next(st, e).claim.value)
  {
    match e
    case ReadReturns(u) => ReadClaimOrigin(st, u);
    case VerdictReturns(u, verdict) => VerdictClaimOrigin(st, u, verdict);
    case _ =>
  }

  lemma ReadClaimOrigin(st: State, u: nat)
    requires Inv(st) && Enabled(st, ReadReturns(u)) && ReadStep(st, u).claim.Some?
    ensures ClaimFrom(st, ReadStep(st, u).claim.value)
  {
  }

  lemma VerdictClaimOrigin(st: State, u: nat, verdict: Option<bool>)
    requires Inv(st) && Waits(st, u)
    ensures VerdictStep(st, u, verdict).claim.Some? && ClaimFrom(st, VerdictStep(st, u, verdict).claim.value)
  {
  }

  lemma {:induction false} TaskFired(events: seq<Event>, t: nat)
    requires t in Run(Start, events).tasks
    ensures var task := Run(Start, events).tasks[t]; Fired(events, t, task.since, task.known)
    decreases |events|
  {
    var rest, e := events[..|events| - 1], events[|events| - 1];
    assert events == rest + [e];
    var st, task := Run(Start, rest), Run(Start, events).tasks[t];
    RunKeeps(rest);
    if Enabled(st, e) {
      TaskOrigin(st, e, t);
    }
    if t in st.tasks && SameOrigin(task, st.tasks[t]) {
      TaskFired(rest, t);
      FiredStays(rest, e, t, task.since, task.known);
    } else {
      VersionIsChanges(events);
      assert events[..|rest|] == rest && events[..|rest| + 1] == events;
      assert FiredAt(events, t, task.since, task.known, |rest|);
    }
  }

  lemma {:induction false} ClaimFired(events: seq<Event>)
    requires Run(Start, events).claim.Some?
    ensures var claim := Run(Start, events).claim.value; Fired(events, claim.event, claim.since, claim.known)
    decreases |events|
  {
    var rest, e := events[..|events| - 1], events[|events| - 1];
    assert events == rest + [e];
    var st, claim := Run(Start, rest), Run(Start, events).claim.value;
    RunKeeps(rest);
    if Enabled(st, e) {
      ClaimOrigin(st, e);
    }
    if st.claim.Some? && claim.event == st.claim.value.event && claim.since == st.claim.value.since
       && claim.known == st.claim.value.known {
      ClaimFired(rest);
    } else {
      TaskFired(rest, claim.event);
    }
    FiredStays(rest, e, claim.event, claim.since, claim.known);
  }

  /** With the event numbered `i` the check about a user that `t` had not heard about failed. */
  ghost predicate FailedAt(events: seq<Event>, t: nat, i: nat) {
    && i < |events| && events[i] == VerdictReturns(t, None) && Enabled(Run(Start, events[..i]), events[i])
    && var st := Run(Start, events[..i]); Heard(events[..i], t, st.users[st.tasks[t].phase.conn]) == None
  }

  ghost predicate CheckFailed(events: seq<Event>, t: nat) {
    exists i: nat :: FailedAt(events, t, i)
  }

  lemma BreaksOff(st: State, e: Event)
    requires Inv(st) && Enabled(st, e) && Next(st, e).claim.Some? && Next(st, e).claim.value.broken
    ensures var claim' := Next(st, e).claim.value;
      || st.claim == Some(claim')
      || (e == VerdictReturns(claim'.event, None)
          && st.users[st.tasks[claim'.event].phase.conn] !in VerdictsOf(st.tasks[claim'.event].phase))
  {
    match e
    case VerdictReturns(t, verdict) => Claimant(st, t);
    case _ =>
  }

  lemma {:induction false} BrokenByFailure(events: seq<Event>)
    requires Run(Start, events).claim.Some? && Run(Start, events).claim.value.broken
    ensures CheckFailed(events, Run(Start, events).claim.value.event)
    decreases |events|
  {
    var rest, e, t := events[..|events| - 1], events[|events| - 1], Run(Start, events).claim.value.event;
    assert events == rest + [e];
    RunKeeps(rest);
    if Enabled(Run(Start, rest), e) {
      BreaksOff(Run(Start, rest), e);
    }
    if Run(Start, rest).claim == Run(Start, events).claim {
      BrokenByFailure(rest);
      var i: nat :| FailedAt(rest, t, i);
      assert rest[..i] == events[..i];
      assert FailedAt(events, t, i);
    } else {
      AlwaysFaithful(rest);
      assert Matches(rest, t, VerdictsOf(Run(Start, rest).tasks[t].phase));
      assert FailedAt(events, t, |rest|);
    }
  }

  /**
   Newest broadcast wins, told from the events: when nothing is under way, the last claim is that of the
   newest event whose read was answered with a row, and the row is no older than that event. The claim came to
   every connection there was at the event, unless a check failed. Of an open connection it came to it has the
   answer about its user, and the last frame there is that of this event with that row exactly if it was yes.
   */
  lemma NewestIsSentIff(events: seq<Event>)
    requires Run(Start, events).tasks == map[]
    ensures var st := Run(Start, events);
      && (st.claim.Some? <==> exists t: nat :: Found(events, t))
      && (st.claim.Some? ==>
            var claim := st.claim.value;
            && Found(events, claim.event) && (forall t: nat :: Found(events, t) ==> t <= claim.event)
            && ReadBy(events, claim.event, claim.row) && Fired(events, claim.event, claim.since, claim.known)
            && claim.since <= claim.row
            && (claim.broken ==> CheckFailed(events, claim.event))
            && (!claim.broken ==> claim.known <= claim.visited && forall k :: k in st.open && k < claim.visited ==>
                  && k in st.users && Heard(events, claim.event, st.users[k]).Some?
                  && (Heard(events, claim.event, st.users[k]) == Some(true) <==>
                      LastFrame(st.log, k) == Some(Frame(k, claim.event, claim.row)))))
  {
    var st := Run(Start, events);
    forall t: nat | Found(events, t) ensures st.claim.Some? && t <= st.claim.value.event {
      FoundIsTakenUp(events, t);
    }
    if st.claim.Some? {
      ClaimRowRead(events);
      ClaimFired(events);
      RunKeeps(events);
      assert Found(events, st.claim.value.event);
      if st.claim.value.broken {
        BrokenByFailure(events);
      } else {
        forall k | k in st.open && k < st.claim.value.visited
          ensures k in st.users && Heard(events, st.claim.value.event, st.users[k]).Some?
          ensures Heard(events, st.claim.value.event, st.users[k]) == Some(true) <==>
                  LastFrame(st.log, k) == Some(Frame(k, st.claim.value.event, st.claim.value.row))
        {
          LastIsDueIff(events, k);
        }
      }
    }
  }

  lemma LastIsDueIff(events: seq<Event>, k: nat)
    requires var st := Run(Start, events);
      st.tasks == map[] && st.claim.Some? && !st.claim.value.broken && k in st.open && k < st.claim.value.visited
    ensures var st := Run(Start, events); var claim := st.claim.value;
      && k in st.users && Heard(events, claim.event, st.users[k]).Some?
      && (Heard(events, claim.event, st.users[k]) == Some(true) <==>
          LastFrame(st.log, k) == Some(Frame(k, claim.event, claim.row)))
  {
    var st := Run(Start, events);
    NewestWins(events, k);
    AlwaysFaithful(events);
    if LastFrame(st.log, k).Some? {
      LastFrameIn(st.log, k);
      FramesAreDue(events, LastFrame(st.log, k).value);
    }
  }

  lemma {:induction false} LastFrameIn(log: seq<Frame>, k: nat)
    requires LastFrame(log, k).Some?
    ensures LastFrame(log, k).value in log
  {
    if log[|log| - 1].conn != k {
      LastFrameIn(log[..|log| - 1], k);
    }
  }

  // -------- Every broadcast comes to its end

  /** The last broadcast to finish drops the counters: with none under way the session has no entry. */
  lemma {:induction false} CountersAreDropped(events: seq<Event>)
    ensures Run(Start, events).current.None? <==> Run(Start, events).tasks == map[]
    decreases |events|
  {
    RunKeeps(events);
    if events != [] {
      var rest, e := events[..|events| - 1], events[|events| - 1];
      CountersAreDropped(rest);
      RunKeeps(rest);
      if Enabled(Run(Start, rest), e) {
        EventDrops(Run(Start, rest), e);
      }
    }
  }

  lemma EventDrops(st: State, e: Event)
    requires Inv(st) && Enabled(st, e) && (st.tasks == map[] ==> st.current.None?)
    ensures Next(st, e).tasks == map[] ==> Next(st, e).current.None?
  {
    match e
    case Fire(changed) => assert st.nextEvent in FireStep(st, changed).tasks;
    case DbAnswers(t, _, _) => assert t in Next(st, e).tasks;
    case ReadReturns(t) => ReadDrops(st, t);
    case VerdictReturns(t, verdict) => VerdictDrops(st, t, verdict);
    case _ =>
  }

  lemma FinishDrops(st: State, t: nat)
    requires CountersInv(st) && t in st.tasks
    ensures Finish(st, t).tasks == map[] ==> Finish(st, t).current.None?
  {
    assert |st.tasks - {t}| == |st.tasks| - 1;
  }

  lemma ReadDrops(st: State, t: nat)
    requires Inv(st) && Enabled(st, ReadReturns(t))
    ensures ReadStep(st, t).tasks == map[] ==> ReadStep(st, t).current.None?
  {
    match st.tasks[t].phase.answer
    case Found(row) =>
      if st.tasks[t].mine < st.counters[st.tasks[t].counters].claimed {
        FinishDrops(Seen(st, t), t);
      } else {
        ClaimKeepsCounters(st, t, row);
        VisitDrops(Claiming(Seen(st, t), t, row), t, 0);
      }
    case _ => FinishDrops(st, t);
  }

  lemma VisitDrops(st: State, t: nat, from: nat)
    requires CountersInv(st) && TurnsInv(st) && Holds(st, t) && st.tasks[t].phase.Visiting? && st.claim.Some?
    requires from <= st.nextConn
    ensures VisitNext(st, t, from).tasks == map[] ==> VisitNext(st, t, from).current.None?
  {
    var k := NextOpen(st.open, from, st.nextConn);
    MovingCounters(st, t, k);
    if k == st.nextConn {
      FinishDrops(Moving(st, t, k), t);
    } else {
      assert t in Moving(st, t, k).tasks;
    }
  }

  lemma VerdictDrops(st: State, t: nat, verdict: Option<bool>)
    requires Inv(st) && Waits(st, t)
    ensures VerdictStep(st, t, verdict).tasks == map[] ==> VerdictStep(st, t, verdict).current.None?
  {
    var task := st.tasks[t];
    var known := st.users[task.phase.conn] in task.phase.verdicts;
    var superseded := st.counters[task.counters].claimed != task.mine;
    Claimant(st, t);
    if !known && verdict.None? {
      FinishDrops(if superseded then st else st.(claim := Some(st.claim.value.(broken := true))), t);
    } else if superseded {
      FinishDrops(st, t);
    } else {
      AnsweredDrops(st, t, if known then task.phase.verdicts[st.users[task.phase.conn]] else verdict.value);
    }
  }

  lemma AnsweredDrops(st: State, t: nat, visible: bool)
    requires Inv(st) && Waits(st, t) && st.claim.value.event == t
    requires st.users[st.tasks[t].phase.conn] in st.tasks[t].phase.verdicts ==>
               st.tasks[t].phase.verdicts[st.users[st.tasks[t].phase.conn]] == visible
    ensures var st' := VisitNext(Answered(st, t, visible), t, st.tasks[t].phase.conn + 1);
      st'.tasks == map[] ==> st'.current.None?
  {
    ClaimantAsks(st, t, visible);
    AnswerCounters(st, t, visible);
    VisitDrops(Answered(st, t, visible), t, st.tasks[t].phase.conn + 1);
  }

  /** How far a broadcast is. */
  function Stage(p: Phase): nat {
    match p
    case Reading(Pending) => 0
    case Reading(_) => 1
    case Visiting(_, conn, _) => 2 + conn
  }

  predicate OwnEvent(e: Event, t: nat) {
    match e
    case DbAnswers(u, _, _) => u == t
    case ReadReturns(u) => u == t
    case VerdictReturns(u, _) => u == t
    case _ => false
  }

  predicate Advances(st: State, st': State, e: Event, t: nat)
    requires t in st.tasks
  {
    if OwnEvent(e, t) then t !in st'.tasks || Stage(st'.tasks[t].phase) > Stage(st.tasks[t].phase)
    else t in st'.tasks && st'.tasks[t] == st.tasks[t]
  }

  /** With each of its own events a broadcast is over or gets further, and no other event ends it or moves it. */
  lemma BroadcastsAdvance(events: seq<Event>, e: Event, t: nat)
    requires t in Run(Start, events).tasks && Enabled(Run(Start, events), e)
    ensures Advances(Run(Start, events), Run(Start, events + [e]), e, t)
  {
    RunStep(events, e);
    RunKeeps(events);
    match e
    case ReadReturns(u) => ReadAdvances(Run(Start, events), u, t);
    case VerdictReturns(u, verdict) => VerdictAdvances(Run(Start, events), u, verdict, t);
    case _ =>
  }

  lemma ReadAdvances(st: State, u: nat, t: nat)
    requires Inv(st) && Enabled(st, ReadReturns(u)) && t in st.tasks
    ensures Advances(st, ReadStep(st, u), ReadReturns(u), t)
  {
  }

  lemma VerdictAdvances(st: State, u: nat, verdict: Option<bool>, t: nat)
    requires Inv(st) && Waits(st, u) && t in st.tasks
    ensures Advances(st, VerdictStep(st, u, verdict), VerdictReturns(u, verdict), t)
  {
  }
}
