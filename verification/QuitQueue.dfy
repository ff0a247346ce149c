/**
 The code of the quit, apps/desktop/src/lib.rs 108-244 and 3593-3636: the fields behind the locks are
 updated in place, and every handler is proved to take the step `Quit` reasons about.
 */
module QuitQueue {
  import opened Wrappers
  import opened Quit

  class Desktop {

    var windows: set<Window>
    var queue: Option<QuitState>
    var generation: nat
    var timers: set<Timer>
    var cleared: set<Timer>
    var exited: bool

    ghost var queued: seq<Window>
    ghost var taken: nat
    ghost var asked: seq<nat>
    ghost var ran: seq<Action>
    ghost var declined: bool
    ghost var lastAsked: Option<Window>
    ghost var forced: seq<Timer>
    ghost var newcomers: set<Window>

    ghost function View(): State reads this {
      State(windows, queue, generation, timers, cleared, queued, taken, asked, ran, declined, lastAsked, forced,
            newcomers, exited)
    }

    constructor (windows: set<Window>)
      ensures View() == Start(windows)
    {
      this.windows, queue, generation, timers, cleared, exited := windows, None, 0, {}, {}, false;
      queued, taken, asked, ran, declined, lastAsked := [], 0, [], [], false, None;
      forced, newcomers := [], windows;
    }

    method OpenWindow(window: Window)
      modifies this
      ensures View() == Next(old(View()), Opens(window))
    {
      if window !in windows {
        windows := windows + {window};
        newcomers := newcomers + {window};
      }
    }

    /** A new timer is the only one that may still fire; its window is asked. */
    method AskWithFallback(window: Window)
      requires taken > 0
      modifies this`generation, this`timers, this`asked, this`lastAsked
      ensures View() == old(View()).(generation := generation, timers := timers, asked := asked, lastAsked := Some(window))
      ensures generation == old(generation) + 1 && timers == old(timers) + {Timer(generation, window)}
      ensures asked == old(asked) + [taken - 1]
    {
      generation := generation + 1;
      timers := timers + {Timer(generation, window)};
      asked, lastAsked := asked + [taken - 1], Some(window);
    }

    method TakeNext(next: QuitState)
      modifies this`queue, this`taken
      ensures View() == old(View()).(quit := Some(next), taken := old(taken) + 1)
    {
      queue := Some(next);
      taken := taken + 1;
    }

    /** Asks the next window for its close, or runs the terminal action; `action` tells which one ran. */
    method AdvanceQuit() returns (action: Option<Action>)
      modifies this`queue, this`taken, this`generation, this`timers, this`asked, this`lastAsked, this`ran
      ensures View() == Quit.AdvanceQuit(old(View()))
      ensures ran == old(ran) + (if action.Some? then [action.value] else [])
      decreases if queue.Some? then |queue.value.remaining| else 0
    {
      action := None;
      match QuitAdvance(queue) {
        case Idle =>
        case CloseWindow(window, next) =>
          TakeNext(next);
          if window in windows {
            AskWithFallback(window);
          } else {
            action := AdvanceQuit();
          }
        case Finished(requested) =>
          queue := None;
          action := Some(requested);
          ran := ran + [requested];
      }
    }

    /** `order` is the listing of the window map at the time of the request. */
    method BeginQuit(action: Action, order: seq<Window>)
      modifies this
      ensures View() == Quit.BeginQuit(old(View()), action, order)
    {
      if queue.Some? {
        return;
      }
      queue := Some(QuitState(order, action));
      queued, taken, asked, ran, declined, newcomers := order, 0, [], [], false, {};
      assert View() == old(View()).(quit := Some(QuitState(order, action)), queue := order, taken := 0,
                                    asked := [], ran := [], declined := false, newcomers := {});
      var _ := AdvanceQuit();
    }

    method DeclineExit()
      modifies this
      ensures View() == Next(old(View()), Declines)
    {
      generation := generation + 1;
      declined, lastAsked := declined || queue.Some?, None;
      queue := None;
    }

    method WindowDestroyed(window: Window) returns (action: Option<Action>)
      modifies this
      ensures View() == Next(old(View()), Destroyed(window))
      ensures ran == old(ran) + (if action.Some? then [action.value] else [])
    {
      windows := windows - {window};
      action := AdvanceQuit();
    }

    /** The sleeping timer wakes and loads the generation; `fires` tells whether it is still its own. */
    method FallbackWakes(timer: Timer) returns (fires: bool)
      requires timer in timers
      modifies this`timers, this`cleared
      ensures View() == Next(old(View()), TimerWakes(timer))
      ensures fires == (timer.generation == generation)
    {
      timers := timers - {timer};
      fires := timer.generation == generation;
      if fires {
        cleared := cleared + {timer};
      }
    }

    /** The timer's thread goes on: its window is destroyed unasked, if it is still there. */
    method FallbackActs(timer: Timer) returns (destroys: bool)
      requires timer in cleared
      modifies this`cleared, this`forced
      ensures View() == Next(old(View()), TimerActs(timer))
      ensures destroys == (timer.window in windows)
    {
      cleared := cleared - {timer};
      destroys := timer.window in windows;
      if destroys {
        forced := forced + [timer];
      }
    }

    method OnExitRequested(order: seq<Window>) returns (prevented: bool)
      modifies this
      ensures View() == Next(old(View()), ExitRequested(order))
      ensures prevented <==> old(windows) != {}
    {
      if windows != {} {
        BeginQuit(Exit, order);
        return true;
      }
      exited := true;
      return false;
    }
  }
}
