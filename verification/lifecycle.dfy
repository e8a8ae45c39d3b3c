/** The game-lifecycle state machine of GameMain as values.

    A Game is what the controller knows: its current state, whether the step
    timer is running, and the calls it has issued to its board (the Matrix),
    in order. Every lifecycle call is a function from the Game before to a
    Result: Ok with the Game after, or Err when the call is made in a state
    that does not allow it. GameMain raises IllegalStateException there,
    and since its guard comes before any change, an Err leaves the Game as
    it was (see After).

    The board itself is opaque: what its stepGame and isFull answer is
    passed in as a parameter, and only the calls made to it are recorded. */
module Lifecycle {

  datatype State = Initialized | Ready | Playing | GameOver

  /** The directives the controller sends to the board. */
  datatype Action = RotateRight | Down | Left | Right

  /** The key codes the key handler tells apart; every other key is OtherKey. */
  datatype Key = ArrowUp | ArrowDown | ArrowLeft | ArrowRight | OtherKey

  /** One mutating call issued to the board. */
  datatype MatrixCall = NewGameCall | StepCall(action: Action) | LockDownCall

  /** The guarded calls of the lifecycle, as named in their error. */
  datatype Op = NewGameOp | StartGameOp | StopGameOp | StepGameOp

  /** The one error kind: a guarded call made in a state that does not allow it. */
  datatype Error = IllegalState(op: Op, state: State)

  datatype Result<T> = Ok(value: T) | Err(error: Error)

  datatype Option<T> = None | Some(value: T)

  /** What a call reports to its caller once it has returned or raised. */
  datatype Outcome = Done | Failed(error: Error)

  datatype Game = Game(state: State, timerRunning: bool, log: seq<MatrixCall>)

  /** The Game after a call: the new one on success, the old one on an error. */
  function After(g: Game, r: Result<Game>): Game
  {
    match r
    case Ok(h) => h
    case Err(_) => g
  }

  function OutcomeOf(r: Result<Game>): Outcome
  {
    match r
    case Ok(_) => Done
    case Err(e) => Failed(e)
  }

  /** The step timer runs exactly while a game is being played. */
  predicate TimerMatchesState(g: Game)
  {
    g.timerRunning <==> g.state == Playing
  }

  /** The board's call log as the controller can produce it: each round opens
      with newGame, and lockDown is issued only right after a step down. */
  predicate LogWellFormed(log: seq<MatrixCall>)
  {
    (|log| > 0 ==> log[0] == NewGameCall) &&
    forall i :: 0 < i < |log| && log[i] == LockDownCall ==> log[i - 1] == StepCall(Down)
  }

  /** The invariant of every Game the controller can reach. */
  predicate Coherent(g: Game)
  {
    TimerMatchesState(g) &&
    (g.state == Initialized <==> g.log == []) &&
    LogWellFormed(g.log)
  }

  /** initGame: a fresh board, a fresh stopped timer, state INITIALIZED. */
  function InitGame(): (g: Game)
    ensures Coherent(g) && g.state == Initialized
  {
    Game(Initialized, false, [])
  }

  /** newGame: legal from INITIALIZED or GAMEOVER; resets the board once and
      moves to READY, leaving the timer alone. */
  function NewGame(g: Game): (r: Result<Game>)
    ensures r.Ok? <==> g.state in {Initialized, GameOver}
    ensures r.Err? ==> r.error == IllegalState(NewGameOp, g.state)
    ensures r.Ok? ==> r.value.state == Ready && r.value.timerRunning == g.timerRunning
    ensures r.Ok? ==> r.value.log == g.log + [NewGameCall]
    ensures Coherent(g) && r.Ok? ==> Coherent(r.value) && !r.value.timerRunning
  {
    if g.state != GameOver && g.state != Initialized then
      Err(IllegalState(NewGameOp, g.state))
    else
      Ok(g.(state := Ready, log := g.log + [NewGameCall]))
  }

  /** startGame: legal from READY only; starts the timer and moves to PLAYING. */
  function StartGame(g: Game): (r: Result<Game>)
    ensures r.Ok? <==> g.state == Ready
    ensures r.Err? ==> r.error == IllegalState(StartGameOp, g.state)
    ensures r.Ok? ==> r.value.state == Playing && r.value.timerRunning && r.value.log == g.log
    ensures Coherent(g) && r.Ok? ==> Coherent(r.value)
  {
    if g.state != Ready then
      Err(IllegalState(StartGameOp, g.state))
    else
      Ok(g.(state := Playing, timerRunning := true))
  }

  /** stopGame: legal from PLAYING only; stops the timer and moves to GAMEOVER. */
  function StopGame(g: Game): (r: Result<Game>)
    ensures r.Ok? <==> g.state == Playing
    ensures r.Err? ==> r.error == IllegalState(StopGameOp, g.state)
    ensures r.Ok? ==> r.value.state == GameOver && !r.value.timerRunning && r.value.log == g.log
    ensures Coherent(g) && r.Ok? ==> Coherent(r.value)
  {
    if g.state != Playing then
      Err(IllegalState(StopGameOp, g.state))
    else
      Ok(g.(state := GameOver, timerRunning := false))
  }

  /** stepGame, one tick: legal from PLAYING only. It steps the board DOWN;
      `locked` is the board's answer to that step and lockDown follows iff it
      is true. `full` is the board's answer to isFull afterwards: when true the
      game is stopped, otherwise it stays PLAYING. */
  function StepGame(g: Game, locked: bool, full: bool): (r: Result<Game>)
    ensures r.Ok? <==> g.state == Playing
    ensures r.Err? ==> r.error == IllegalState(StepGameOp, g.state)
    ensures r.Ok? ==> r.value.log == g.log + [StepCall(Down)] + (if locked then [LockDownCall] else [])
    ensures r.Ok? ==> (LockDownCall in r.value.log[|g.log|..] <==> locked)
    ensures r.Ok? ==> (r.value.state == GameOver <==> full) && (r.value.state == Playing <==> !full)
    ensures r.Ok? && full ==> !r.value.timerRunning
    ensures r.Ok? && !full ==> r.value.timerRunning == g.timerRunning
    ensures Coherent(g) && r.Ok? ==> Coherent(r.value)
  {
    if g.state != Playing then
      Err(IllegalState(StepGameOp, g.state))
    else
      var issued := [StepCall(Down)] + (if locked then [LockDownCall] else []);
      var stepped := g.(log := g.log + issued);
      assert stepped.log[|g.log|..] == issued;
      if full then StopGame(stepped) else Ok(stepped)
  }

  /** The action a key forwards to the board while PLAYING, if any. */
  function ActionOf(k: Key): Option<Action>
  {
    match k
    case ArrowUp => Some(RotateRight)
    case ArrowDown => Some(Down)
    case ArrowLeft => Some(Left)
    case ArrowRight => Some(Right)
    case OtherKey => None
  }


  /** The key handler. READY: any key starts the game. PLAYING: an arrow key
      forwards one action to the board (its answer is ignored), other keys do
      nothing. GAMEOVER: any key runs newGame then startGame. INITIALIZED:
      nothing happens. The handler never raises. */
  function KeyPressed(g: Game, k: Key): (r: Result<Game>)
    ensures r.Ok?
    ensures g.state == Initialized ==> r.value == g
    ensures g.state == Ready ==> r.value == g.(state := Playing, timerRunning := true)
    ensures g.state == GameOver ==>
      r.value == g.(state := Playing, timerRunning := true, log := g.log + [NewGameCall])
    ensures g.state == Playing ==>
      r.value.state == Playing && r.value.timerRunning == g.timerRunning &&
      r.value.log == g.log + (if k == OtherKey then [] else [StepCall(ActionOf(k).value)])
    ensures Coherent(g) ==> Coherent(r.value)
  {
    match g.state
    case Initialized => Ok(g)
    case Ready => StartGame(g)
    case Playing =>
      (match ActionOf(k)
       case Some(a) => Ok(g.(log := g.log + [StepCall(a)]))
       case None => Ok(g))
    case GameOver =>
      (match NewGame(g)
       case Ok(reset) => StartGame(reset)
       case Err(e) => Err(e))
  }

  /** The fixed mapping of the key handler while PLAYING: each arrow key
      forwards its one action to the board, and any other key nothing. */
  lemma PlayingKeysForwardOneAction(g: Game)
    requires g.state == Playing
    ensures KeyPressed(g, ArrowUp) == Ok(g.(log := g.log + [StepCall(RotateRight)]))
    ensures KeyPressed(g, ArrowDown) == Ok(g.(log := g.log + [StepCall(Down)]))
    ensures KeyPressed(g, ArrowLeft) == Ok(g.(log := g.log + [StepCall(Left)]))
    ensures KeyPressed(g, ArrowRight) == Ok(g.(log := g.log + [StepCall(Right)]))
    ensures KeyPressed(g, OtherKey) == Ok(g)
  {
  }

  /** The constructor: initGame followed by newGame. */
  function Constructed(): (g: Game)
    ensures g.state == Ready && !g.timerRunning && g.log == [NewGameCall]
    ensures Coherent(g)
  {
    NewGame(InitGame()).value
  }
}
