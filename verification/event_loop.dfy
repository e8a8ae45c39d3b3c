/** The controller driven by its single event thread: key presses, timer
    ticks and direct calls of the public lifecycle methods, handled one after
    another. A tick is delivered only while the step timer runs. A call that
    raises leaves the controller as it was, and the next event is handled. */
module EventLoop {
  import opened Lifecycle

  datatype Event =
    | KeyPress(key: Key)
    // the step timer fires; the board answers `locked` to the step and `full` to isFull
    | TimerFired(locked: bool, full: bool)
    | CallNewGame
    | CallStartGame
    | CallStopGame
    | CallStepGame(locked: bool, full: bool)

  function Handle(g: Game, e: Event): Result<Game>
  {
    match e
    case KeyPress(k) => KeyPressed(g, k)
    case TimerFired(locked, full) => if g.timerRunning then StepGame(g, locked, full) else Ok(g)
    case CallNewGame => NewGame(g)
    case CallStartGame => StartGame(g)
    case CallStopGame => StopGame(g)
    case CallStepGame(locked, full) => StepGame(g, locked, full)
  }

  /** The controller after handling the events in order. */
  function Run(g: Game, events: seq<Event>): Game
    decreases |events|
  {
    if events == [] then g else Run(After(g, Handle(g, events[0])), events[1..])
  }

  /** Handling any one event, raising or not, keeps the invariant and only
      appends to the board's call log. */
  lemma HandleKeepsCoherent(g: Game, e: Event)
    requires Coherent(g)
    ensures Coherent(After(g, Handle(g, e)))
    ensures g.log <= After(g, Handle(g, e)).log
  {
  }

  /** Every Game reachable from a coherent one is coherent, and the board's
      call log is append-only along the way. */
  lemma {:induction false} RunKeepsCoherent(g: Game, events: seq<Event>)
    requires Coherent(g)
    ensures Coherent(Run(g, events))
    ensures g.log <= Run(g, events).log
    decreases |events|
  {
    if events != [] {
      var next := After(g, Handle(g, events[0]));
      HandleKeepsCoherent(g, events[0]);
      RunKeepsCoherent(next, events[1..]);
    }
  }

  /** From construction on: the timer runs iff the state is PLAYING, the log
      opens with newGame and every lockDown directly follows a step down. */
  lemma {:induction false} ReachableIsCoherent(events: seq<Event>)
    ensures Coherent(Run(Constructed(), events))
    ensures [NewGameCall] <= Run(Constructed(), events).log
  {
    RunKeepsCoherent(Constructed(), events);
  }

  /** Key presses and timer ticks never raise in a reachable controller; only a
      direct lifecycle call made in the wrong state does. */
  lemma InputNeverRaises(g: Game, e: Event)
    requires Coherent(g)
    requires e.KeyPress? || e.TimerFired?
    ensures Handle(g, e).Ok?
  {
  }

  /** Once the game is over, timer ticks no longer reach the board: any number
      of them leaves the controller, and its call log, unchanged. */
  lemma {:induction false} TicksAfterGameOverAreInert(g: Game, events: seq<Event>)
    requires Coherent(g) && g.state == GameOver
    requires forall i :: 0 <= i < |events| ==> events[i].TimerFired?
    ensures Run(g, events) == g
    decreases |events|
  {
    if events != [] {
      assert Handle(g, events[0]) == Ok(g);
      TicksAfterGameOverAreInert(g, events[1..]);
    }
  }

  /** A tick that finds the board full ends the game, after which the
      timer is stopped and further ticks are inert. */
  lemma {:induction false} FullBoardEndsTheGame(g: Game, locked: bool, events: seq<Event>)
    requires Coherent(g) && g.state == Playing
    requires forall i :: 0 <= i < |events| ==> events[i].TimerFired?
    ensures var over := After(g, Handle(g, TimerFired(locked, true)));
      over.state == GameOver && !over.timerRunning && Run(over, events) == over
  {
    var over := After(g, Handle(g, TimerFired(locked, true)));
    HandleKeepsCoherent(g, TimerFired(locked, true));
    TicksAfterGameOverAreInert(over, events);
  }
}
