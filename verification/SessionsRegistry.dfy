/**
 The registry and outbox of apps/desktop/src/sessions_ws.rs as an object whose methods are the
 critical sections and the steps of its loops, and the sleep between two attempts to connect.
 */
module SessionsRegistry {
  import opened Wrappers
  import opened Backoff
  import opened SessionsWs

  class WindowChannel {
    var current: Option<nat>
    var next: nat
    var outboxes: map<nat, Outbox>
    var loops: map<nat, Phase>
    var backoff: map<nat, nat>
    var tickets: nat
    ghost var taken: set<nat>
    ghost var popped: seq<nat>
    ghost var cancelled: set<nat>
    ghost var out: seq<Pop>
    ghost var dropped: set<nat>
    ghost var said: seq<Status>
    ghost var fails: map<nat, nat>

    ghost function View(): State
      reads this
    {
      State(current, next, outboxes, loops, tickets, taken, popped, cancelled, out, dropped, said, backoff, fails)
    }

    constructor ()
      ensures View() == Start
    {
      current, next, outboxes, loops, backoff, fails := None, 0, map[], map[], map[], map[];
      tickets, taken, popped, cancelled, out, dropped, said := 0, {}, [], {}, [], {}, [];
    }

    /** `close_and_take`: closed and emptied under one lock. */
    method CloseAndTake(g: nat) returns (frames: seq<Entry>)
      requires g in outboxes
      modifies this`outboxes
      ensures frames == old(outboxes)[g].queue && outboxes == old(outboxes)[g := Outbox([], true)]
    {
      frames := outboxes[g].queue;
      outboxes := outboxes[g := outboxes[g].(closed := true)];
      outboxes := outboxes[g := outboxes[g].(queue := [])];
      assert outboxes == old(outboxes)[g := Outbox([], true)];
    }

    method Register() returns (generation: nat, replaced: bool)
      requires current.Some? ==> current.value in outboxes
      modifies this`current, this`next, this`outboxes, this`loops, this`backoff, this`fails
      ensures View() == Next(old(View()), Connect)
      ensures generation == old(next) && replaced == old(current.Some?)
    {
      generation := next;
      next := next + 1;
      replaced := current.Some?;
      var carried: seq<Entry> := [];
      if current.Some? {
        carried := CloseAndTake(current.value);
      }
      outboxes := outboxes[generation := Outbox(carried, false)];
      current := Some(generation);
      SpawnLoop(generation);
    }

    /** `run_connection_loop` begins, with the least delay. */
    method SpawnLoop(generation: nat)
      modifies this`loops, this`backoff, this`fails
      ensures loops == old(loops)[generation := Connecting] && fails == old(fails)[generation := 0]
      ensures backoff == old(backoff)[generation := MIN_BACKOFF_MS]
    {
      loops := loops[generation := Connecting];
      backoff := backoff[generation := MIN_BACKOFF_MS];
      fails := fails[generation := 0];
    }

    method Remove()
      requires current.Some? ==> current.value in outboxes
      modifies this`current, this`outboxes, this`taken, this`popped, this`dropped
      ensures View() == Next(old(View()), Event.Disconnect)
    {
      if current.Some? {
        var g := current.value;
        outboxes := outboxes[g := outboxes[g].(closed := true)];
        current := None;
        taken, popped, dropped := {}, [], dropped + {g};
      }
    }

    /** Refused when the window is not connected; otherwise the frame is queued behind all others. */
    method Push(id: Option<string>) returns (ok: bool)
      requires current.Some? ==> current.value in outboxes
      modifies this`outboxes, this`tickets, this`taken
      ensures ok == current.Some? && View() == Next(old(View()), Event.Push(id))
    {
      ok := current.Some?;
      if ok {
        var box := outboxes[current.value];
        outboxes := outboxes[current.value := box.(queue := box.queue + [Entry(tickets, id)])];
        taken := taken + {tickets};
        tickets := tickets + 1;
      }
    }

    /** `retain`, frame by frame: those with the request id leave the queue. */
    method Cancel(id: string)
      requires current.Some? ==> current.value in outboxes
      modifies this`outboxes, this`cancelled
      ensures View() == Next(old(View()), Event.Cancel(id))
    {
      if current.None? {
        return;
      }
      var box := outboxes[current.value];
      var kept: seq<Entry> := [];
      var i := 0;
      assert box.queue[..0] == [];
      while i < |box.queue|
        invariant 0 <= i <= |box.queue| && kept == Retain(box.queue[..i], id)
      {
        assert box.queue[..i + 1][..i] == box.queue[..i];
        if box.queue[i].id != Some(id) {
          kept := kept + [box.queue[i]];
        }
        i := i + 1;
      }
      assert box.queue[..i] == box.queue;
      outboxes := outboxes[current.value := box.(queue := kept)];
      cancelled := cancelled + Hit(box.queue, id);
    }

    /** The upgrade has come or failed: a retired loop closes the new socket, a failed one is to say so. */
    method ConnectEnded(g: nat, ok: bool)
      requires Enabled(View(), ConnectEnds(g, ok))
      modifies this`loops, this`backoff, this`fails
      ensures View() == Next(old(View()), ConnectEnds(g, ok))
    {
      if !ok {
        fails := fails[g := fails[g] + 1];
        Ask(g);
      } else if current != Some(g) {
        loops := loops - {g};
      } else {
        backoff := backoff[g := MIN_BACKOFF_MS];
        fails := fails[g := 0];
        loops := loops[g := Cleared(true)];
      }
    }

    /** The check of `emit_if_current`: the lock is released before the status goes out. */
    method Ask(g: nat)
      modifies this`loops
      ensures View() == Asks(old(View()), g)
    {
      if current == Some(g) {
        loops := loops[g := Cleared(false)];
      } else {
        loops := loops[g := Sleeping];
      }
    }

    /** `emit_connection_status`, and on: to the socket, or to the backoff. */
    method Emit(g: nat)
      requires Enabled(View(), Says(g))
      modifies this`loops, this`said
      ensures View() == Next(old(View()), Says(g))
    {
      if loops[g].opens {
        said := said + [Status(g, "open")];
        loops := loops[g := Open];
      } else {
        said := said + [Status(g, "reconnecting")];
        loops := loops[g := Sleeping];
      }
    }

    /** One turn of the drain loop of generation `g`: a frame to write, or none. */
    method Drain(g: nat) returns (frame: Option<Entry>)
      requires Enabled(View(), Event.Drain(g))
      modifies this`outboxes, this`out, this`popped, this`loops
      ensures View() == Next(old(View()), Event.Drain(g))
      ensures frame == if old(outboxes)[g].queue == [] then None else Some(old(outboxes)[g].queue[0])
    {
      var box := outboxes[g];
      if box.queue == [] {
        loops := loops[g := Waiting];
        return None;
      }
      frame := Some(box.queue[0]);
      outboxes := outboxes[g := box.(queue := box.queue[1..])];
      out := out + [Pop(g, frame.value.ticket)];
      if current == Some(g) {
        popped := popped + [frame.value.ticket];
      }
      loops := loops[g := Writing];
    }

    /** The socket is lost: a retired loop returns, the current one goes on to ask again and tell. */
    method SocketLost(g: nat)
      requires g in fails
      modifies this`loops, this`fails
      ensures View() == Lost(old(View()), g)
    {
      if current != Some(g) {
        loops := loops - {g};
      } else {
        fails := fails[g := fails[g] + 1];
        loops := loops[g := Doubting];
      }
    }

    /** The delay is over: a retired loop returns, the current one doubles its delay and connects again. */
    method SleepEnded(g: nat)
      requires Enabled(View(), SleepEnds(g))
      modifies this`loops, this`backoff
      ensures View() == Next(old(View()), SleepEnds(g))
    {
      if current != Some(g) {
        loops := loops - {g};
      } else {
        backoff := backoff[g := NextBackoffMs(backoff[g])];
        loops := loops[g := Connecting];
      }
    }
  }

  // -------- Sleeping out the backoff

  const POLL_MS: nat := 200

  function Sum(s: seq<nat>): nat {
    if s == [] then 0 else Sum(s[..|s| - 1]) + s[|s| - 1]
  }

  /**
   Sleeps in slices, asking before each whether the loop is still current: `current(i)` is the i-th
   answer. Goes on only if every answer was yes, and then has slept the whole delay.
   */
  method SleepUnlessSuperseded(current: nat -> bool, delay: nat) returns (goOn: bool, slices: seq<nat>)
    ensures goOn <==> forall i :: 0 <= i <= |slices| ==> current(i)
    ensures goOn ==> Sum(slices) == delay
    ensures !goOn ==> Sum(slices) <= delay && !current(|slices|)
    ensures forall s :: s in slices ==> 0 < s <= POLL_MS
    ensures forall i :: 0 <= i < |slices| - 1 ==> slices[i] == POLL_MS
  {
    var waited := 0;
    slices := [];
    while waited < delay
      invariant waited == Sum(slices) <= delay
      invariant forall i :: 0 <= i < |slices| ==> current(i)
      invariant forall i :: 0 <= i < |slices| ==> 0 < slices[i] <= POLL_MS
      invariant forall i :: 0 <= i < |slices| - 1 ==> slices[i] == POLL_MS
      invariant slices != [] && waited < delay ==> slices[|slices| - 1] == POLL_MS
    {
      if !current(|slices|) {
        return false, slices;
      }
      var step := if POLL_MS < delay - waited then POLL_MS else delay - waited;
      assert (slices + [step])[..|slices|] == slices;
      slices := slices + [step];
      waited := waited + step;
    }
    goOn := current(|slices|);
  }
}
