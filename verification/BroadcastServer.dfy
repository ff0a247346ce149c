/**
 The same segments as updates of the server's variables: each method is what runs from one `await`
 to the next, and changes the state exactly as the step functions of `Broadcast` and `Snapshots` say.
 */
module BroadcastServer {
  import opened Wrappers
  import opened Broadcast
  import opened Snapshots

  class Broadcasts {
    var counters: map<nat, Turns>
    var current: Option<nat>
    var nextCounter: nat
    var tasks: map<nat, Task>
    var nextEvent: nat
    var users: map<nat, User>
    var open: set<nat>
    var nextConn: nat
    var version: nat
    var shots: map<nat, Shot>
    ghost var log: seq<Frame>
    ghost var claim: Option<Claim>
    ghost var newest: Option<nat>
    ghost var wire: seq<Sent>

    ghost function View(): State
      reads this
    {
      State(counters, current, nextCounter, tasks, nextEvent, users, open, nextConn, version, log, claim, newest)
    }

    ghost function Whole(): Channel
      reads this
    {
      Channel(View(), shots, wire)
    }

    constructor ()
      ensures Whole() == Opening
    {
      counters, current, nextCounter, tasks, nextEvent := map[], None, 0, map[], 0;
      users, open, nextConn, version := map[], {}, 0, 0;
      log, claim, newest := [], None, None;
      shots, wire := map[], [];
    }

    /** Up to `await getSession`: find or make the counters, take a number, count in. */
    method Begin(changed: bool) returns (t: nat)
      requires Enabled(View(), Fire(changed))
      modifies this`version, this`current, this`nextCounter, this`counters, this`tasks, this`nextEvent
      ensures View() == Next(old(View()), Fire(changed)) && t == old(nextEvent)
    {
      if changed {
        version := version + 1;
      }
      var turns := Turns(0, 0, 0);
      if current.Some? {
        turns := counters[current.value];
      } else {
        current := Some(nextCounter);
        nextCounter := nextCounter + 1;
      }
      var id := current.value;
      var mine := turns.issued + 1;
      counters := counters[id := turns.(issued := mine, inFlight := turns.inFlight + 1)];
      t := nextEvent;
      tasks := tasks[t := Task(id, mine, version, nextConn, Reading(Pending))];
      nextEvent := nextEvent + 1;
    }

    /** The `finally` block. */
    method Leave(t: nat)
      requires Holds(View(), t)
      modifies this`counters, this`tasks, this`current
      ensures View() == Finish(old(View()), t)
    {
      var id := tasks[t].counters;
      var left := if counters[id].inFlight == 0 then 0 else counters[id].inFlight - 1;
      counters := counters[id := counters[id].(inFlight := left)];
      if left == 0 && current == Some(id) {
        current := None;
      }
      tasks := tasks - {t};
    }

    /** On to the next connection still open, or out of the loop. */
    method Visit(t: nat, from: nat)
      requires Holds(View(), t) && tasks[t].phase.Visiting? && claim.Some? && from <= nextConn
      modifies this`tasks, this`claim, this`counters, this`current
      ensures View() == VisitNext(old(View()), t, from)
    {
      var k := from;
      while k < nextConn && k !in open
        invariant from <= k <= nextConn
        invariant NextOpen(open, from, nextConn) == NextOpen(open, k, nextConn)
      {
        k := k + 1;
      }
      claim := Some(claim.value.(visited := k));
      tasks := tasks[t := tasks[t].(phase := tasks[t].phase.(conn := k))];
      if k == nextConn {
        Leave(t);
      }
    }

    /** After the row has come back: give up, or claim the send unless a later broadcast has it. */
    method RowArrived(t: nat)
      requires Enabled(View(), ReadReturns(t))
      modifies this`newest, this`counters, this`tasks, this`claim, this`current
      ensures View() == Next(old(View()), ReadReturns(t))
    {
      var task := tasks[t];
      if !task.phase.answer.Found? {
        Leave(t);
        return;
      }
      newest := if newest.Some? && newest.value > t then newest else Some(t);
      var id := task.counters;
      if task.mine < counters[id].claimed {
        Leave(t);
        return;
      }
      counters := counters[id := counters[id].(claimed := task.mine)];
      tasks := tasks[t := task.(phase := Visiting(task.phase.answer.row, 0, map[]))];
      claim := Some(Claim(t, task.since, task.known, task.phase.answer.row, map[], 0, false));
      Visit(t, 0);
    }

    /** The verdict is kept, and the frame goes out if it may. */
    method Send(t: nat, visible: bool)
      requires Waits(View(), t)
      modifies this`log, this`wire, this`tasks, this`claim
      ensures View() == Answered(old(View()), t, visible)
      ensures wire == old(wire) + Added(old(View()), View())
    {
      var task := tasks[t];
      var conn := task.phase.conn;
      if visible && conn in open {
        log := log + [Frame(conn, t, task.phase.row)];
        wire := wire + [Update(Frame(conn, t, task.phase.row))];
      }
      var verdicts := task.phase.verdicts[users[conn] := visible];
      claim := Some(claim.value.(verdicts := verdicts, visited := conn + 1));
      tasks := tasks[t := task.(phase := Visiting(task.phase.row, conn + 1, verdicts))];
    }

    /** After a verdict: give up if it failed or a later broadcast took over, else send if visible. */
    method VerdictArrived(t: nat, verdict: Option<bool>)
      requires Enabled(View(), VerdictReturns(t, verdict))
      modifies this`log, this`wire, this`counters, this`tasks, this`claim, this`current
      ensures View() == Next(old(View()), VerdictReturns(t, verdict))
      ensures wire == old(wire) + Added(old(View()), View())
    {
      var task := tasks[t];
      var conn, user := task.phase.conn, users[task.phase.conn];
      var superseded := counters[task.counters].claimed != task.mine;
      if user !in task.phase.verdicts && verdict.None? {
        if !superseded {
          claim := Some(claim.value.(broken := true));
        }
        Leave(t);
        return;
      }
      if superseded {
        Leave(t);
        return;
      }
      var visible := if user in task.phase.verdicts then task.phase.verdicts[user] else verdict.value;
      Send(t, visible);
      Visit(t, conn + 1);
    }

    /** A connection is added, and its snapshot is asked for. */
    method Opened(user: User) returns (k: nat)
      modifies this
      ensures CanStep(old(Whole()), Broadcasting(Connect(user)))
      ensures Whole() == Take(old(Whole()), Broadcasting(Connect(user))) && k == old(nextConn)
    {
      k := nextConn;
      users := users[k := user];
      open := open + {k};
      nextConn := nextConn + 1;
      shots := shots[k := Asked];
    }

    method Closed(k: nat)
      requires CanStep(Whole(), Broadcasting(Disconnect(k)))
      modifies this
      ensures Whole() == Take(old(Whole()), Broadcasting(Disconnect(k)))
    {
      open := open - {k};
    }

    /** Behind `await deps.snapshot`: one frame with the rows, if the socket is still open. */
    method SnapshotArrived(k: nat)
      requires CanStep(Whole(), SnapshotSends(k))
      modifies this
      ensures Whole() == Take(old(Whole()), SnapshotSends(k))
    {
      var row := shots[k].row;
      shots := shots - {k};
      if row.Some? && k in open {
        wire := wire + [Snapshot(k, row.value)];
      }
    }
  }
}
