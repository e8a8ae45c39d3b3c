/** GameMain as the object it is: the lifecycle methods update the current
    state and the timer flag in place. The board's calls are kept in a ghost
    log; what the board answers comes in as method parameters. Each method is
    proved against its counterpart in Lifecycle, so everything proved there
    holds of the object. */
module Controller {
  import opened Lifecycle

  class GameMain {
    var currentState: State
    var timerRunning: bool
    ghost var matrixLog: seq<MatrixCall>
    /** Whether initGame has run; it runs once, from the constructor. */
    ghost var initDone: bool

    /** The object's state as a Lifecycle Game. */
    ghost function Snapshot(): Game
      reads this
    {
      Game(currentState, timerRunning, matrixLog)
    }

    ghost predicate Valid()
      reads this
    {
      initDone && Coherent(Snapshot())
    }

    /** Construction runs initGame and then newGame. */
    constructor ()
      ensures Valid()
      ensures Snapshot() == Constructed()
      ensures currentState == Ready && !timerRunning
    {
      initDone := false;
      new;
      InitGame();
      var _ := NewGame();
    }

    /** A new board, a new stopped step timer, state INITIALIZED. */
    method InitGame()
      requires !initDone
      modifies this
      ensures Valid()
      ensures Snapshot() == Lifecycle.InitGame()
    {
      initDone := true;
      matrixLog := [];
      timerRunning := false;
      currentState := Initialized;
    }

    method NewGame() returns (outcome: Outcome)
      requires Valid()
      modifies this
      ensures Valid()
      ensures Snapshot() == After(old(Snapshot()), Lifecycle.NewGame(old(Snapshot())))
      ensures outcome == OutcomeOf(Lifecycle.NewGame(old(Snapshot())))
    {
      if currentState != GameOver && currentState != Initialized {
        return Failed(IllegalState(NewGameOp, currentState));
      }
      matrixLog := matrixLog + [NewGameCall];
      currentState := Ready;
      outcome := Done;
    }

    method StartGame() returns (outcome: Outcome)
      requires Valid()
      modifies this
      ensures Valid()
      ensures Snapshot() == After(old(Snapshot()), Lifecycle.StartGame(old(Snapshot())))
      ensures outcome == OutcomeOf(Lifecycle.StartGame(old(Snapshot())))
    {
      if currentState != Ready {
        return Failed(IllegalState(StartGameOp, currentState));
      }
      timerRunning := true;
      currentState := Playing;
      outcome := Done;
    }

    method StopGame() returns (outcome: Outcome)
      requires Valid()
      modifies this
      ensures Valid()
      ensures Snapshot() == After(old(Snapshot()), Lifecycle.StopGame(old(Snapshot())))
      ensures outcome == OutcomeOf(Lifecycle.StopGame(old(Snapshot())))
    {
      if currentState != Playing {
        return Failed(IllegalState(StopGameOp, currentState));
      }
      timerRunning := false;
      currentState := GameOver;
      outcome := Done;
    }

    /** One tick. `locked` is what the board answers to the step DOWN, `full`
        what it answers to isFull afterwards. */
    method StepGame(locked: bool, full: bool) returns (outcome: Outcome)
      requires Valid()
      modifies this
      ensures Valid()
      ensures Snapshot() == After(old(Snapshot()), Lifecycle.StepGame(old(Snapshot()), locked, full))
      ensures outcome == OutcomeOf(Lifecycle.StepGame(old(Snapshot()), locked, full))
    {
      if currentState != Playing {
        return Failed(IllegalState(StepGameOp, currentState));
      }
      matrixLog := matrixLog + [StepCall(Down)];
      if locked {
        matrixLog := matrixLog + [LockDownCall];
      }
      if full {
        outcome := StopGame();
        return;
      }
      outcome := Done;
    }

    /** The key listener registered by initGame. */
    method KeyPressed(key: Key) returns (outcome: Outcome)
      requires Valid()
      modifies this
      ensures Valid()
      ensures Snapshot() == Lifecycle.KeyPressed(old(Snapshot()), key).value
      ensures outcome == Done
    {
      outcome := Done;
      if currentState == Ready {
        outcome := StartGame();
      } else if currentState == Playing {
        match key
        case ArrowUp => matrixLog := matrixLog + [StepCall(RotateRight)];
        case ArrowDown => matrixLog := matrixLog + [StepCall(Down)];
        case ArrowLeft => matrixLog := matrixLog + [StepCall(Left)];
        case ArrowRight => matrixLog := matrixLog + [StepCall(Right)];
        case OtherKey =>
      } else if currentState == GameOver {
        outcome := NewGame();
        if outcome == Done {
          outcome := StartGame();
        }
      }
    }
  }
}
