# GameMain lifecycle model

A Dafny model of the controller of a Swing grid game (the OOP-Tetris
repository, whose window is titled "Snake"). The class `GameMain` owns a
board (`Matrix`), a step timer and the current game state, one of
`INITIALIZED`, `READY`, `PLAYING` and `GAMEOVER`. The guarded lifecycle calls
`newGame`, `startGame` and `stopGame` move between the states and throw
`IllegalStateException` when called in the wrong one. The timer calls
`stepGame` once per tick. A key listener starts, plays and restarts the game.
The panel's `contains(x, y)` checks board bounds.

The project has four modules:

- `Lifecycle` (lifecycle.dfy) is the specification. A `Game` value holds the
  state, whether the step timer runs, and the log of mutating calls issued to
  the board (`NewGameCall`, `StepCall(action)`, `LockDownCall`). Each
  lifecycle call is a function returning `Ok(game after)` or
  `Err(IllegalState(op, state))`. Its contract states the guard in both
  directions, the post-state, the board calls issued, and the preservation
  of `Coherent`. `Coherent` says three things. The timer runs iff the state
  is `PLAYING`. The log is empty iff the state is `INITIALIZED`. The log opens
  with `newGame`, and every `lockDown` directly follows a step `DOWN`.
- `EventLoop` (event_loop.dfy) drives a `Game` with one event at a time, as
  the single event thread does. An event is a key press, a timer tick, or a
  direct call of a public lifecycle method. A tick is delivered only while
  the timer runs, and a call that raises leaves the `Game` unchanged. Two
  facts are proved by induction over event sequences: every reachable `Game`
  is `Coherent` with a board log that only grows, and after the game is over
  ticks reach the board no more. A single-event lemma shows that, in a
  `Coherent` game, key presses and ticks never raise.
- `Controller` (controller.dfy) is `GameMain` as a class. `currentState` and
  `timerRunning` are updated in place, and the board calls go into a ghost
  log. Every method's `ensures` equates the object's new state and its
  outcome with the matching `Lifecycle` function applied to the old state.
  So everything proved about `Lifecycle` holds of the object, and each method
  keeps `Valid()`: initGame has run, and the state is `Coherent`.
- `Pit` (pit.dfy) holds the board size and the board-bounds check `Contains`.

An exception is modelled as an `Err` result (`Failed` outcome for the class
methods) that leaves the state untouched. This is faithful because every
guard in `GameMain` runs before any change. The board's answers are
parameters: `locked` stands for the result of `matrix.stepGame(DOWN)` and
`full` for the result of `matrix.isFull()`.

## Model

| member | source | states |
|---|---|---|
| `Lifecycle.InitGame` | GameMain.java:86-126 | initGame yields state INITIALIZED with a stopped timer and a fresh board with no calls; this Game is Coherent |
| `Lifecycle.NewGame` | GameMain.java:133-142 | succeeds iff the state is INITIALIZED or GAMEOVER, else raises IllegalState(newGame, state); on success the state is READY, the timer is untouched and exactly one newGame call is appended to the board log; preserves Coherent (and then the timer is off) |
| `Lifecycle.StartGame` | GameMain.java:148-155 | succeeds iff the state is READY, else raises IllegalState(startGame, state); on success the state is PLAYING, the timer runs and the board is not called; preserves Coherent |
| `Lifecycle.StopGame` | GameMain.java:161-167 | succeeds iff the state is PLAYING, else raises IllegalState(stopGame, state); on success the state is GAMEOVER, the timer is stopped and the board is not called; preserves Coherent |
| `Lifecycle.StepGame` | GameMain.java:172-196 | succeeds iff the state is PLAYING, else raises IllegalState(stepGame, state); on success exactly one step DOWN is appended to the board log, followed by one lockDown iff the step reported a lock, and nothing else; the state becomes GAMEOVER with the timer stopped iff the board is full, and otherwise stays PLAYING with the timer unchanged; preserves Coherent |
| `Lifecycle.KeyPressed` | GameMain.java:95-123 | never raises. INITIALIZED: nothing changes. READY: the state becomes PLAYING with the timer running. GAMEOVER: exactly one newGame call is logged, and the state ends PLAYING with the timer running. PLAYING: state and timer are unchanged; UP, DOWN, LEFT and RIGHT each forward exactly one step (ROTATE_RIGHT, DOWN, LEFT, RIGHT); any other key issues no board call. Preserves Coherent |
| `Lifecycle.PlayingKeysForwardOneAction` | GameMain.java:102-116 | while PLAYING, UP forwards ROTATE_RIGHT, DOWN forwards DOWN, LEFT forwards LEFT and RIGHT forwards RIGHT, one call each, leaving state and timer as they were; any other key changes nothing |
| `Lifecycle.Constructed` | GameMain.java:58-67 | the constructor (initGame then newGame) leaves the state READY, the timer stopped, and exactly one newGame call in the log; the result is Coherent |
| `EventLoop.HandleKeepsCoherent` | GameMain.java:92-181 | any single event (key press, tick, or direct lifecycle call, raising or not) keeps Coherent and only appends to the board log |
| `EventLoop.RunKeepsCoherent` | GameMain.java:92-181 | any sequence of events from a Coherent game ends in a Coherent game, and the board log only grows |
| `EventLoop.ReachableIsCoherent` | GameMain.java:58-67 | every game reachable from construction is Coherent: the timer runs iff the state is PLAYING, and every lockDown directly follows a step DOWN; its log starts with the constructor's newGame call |
| `EventLoop.InputNeverRaises` | GameMain.java:92-121 | in a Coherent game, key presses and timer ticks never raise IllegalStateException |
| `EventLoop.TicksAfterGameOverAreInert` | GameMain.java:161-181 | in a Coherent GAMEOVER game, any number of timer ticks changes nothing, including the board log |
| `EventLoop.FullBoardEndsTheGame` | GameMain.java:175-181 | a tick from PLAYING that finds the board full moves to GAMEOVER and stops the timer; no later tick changes anything |
| `Controller.GameMain.constructor` | GameMain.java:58-67 | the new object is Valid, in state READY with the timer stopped, and has issued exactly one newGame call |
| `Controller.GameMain.InitGame` | GameMain.java:86-126 | callable only before initGame has run (the constructor runs it once); the object's state becomes Lifecycle.InitGame(), and it is Valid |
| `Controller.GameMain.NewGame` | GameMain.java:133-142 | the new state and outcome are those of Lifecycle.NewGame on the old state; keeps Valid |
| `Controller.GameMain.StartGame` | GameMain.java:148-155 | the new state and outcome are those of Lifecycle.StartGame on the old state; keeps Valid |
| `Controller.GameMain.StopGame` | GameMain.java:161-167 | the new state and outcome are those of Lifecycle.StopGame on the old state; keeps Valid |
| `Controller.GameMain.StepGame` | GameMain.java:172-196 | the new state and outcome are those of Lifecycle.StepGame on the old state and the board's answers; keeps Valid |
| `Controller.GameMain.KeyPressed` | GameMain.java:97-122 | the new state is that of Lifecycle.KeyPressed on the old state; the handler always completes without error; keeps Valid |
| `Pit.Contains` | GameMain.java:245-253 | true exactly when 0 <= x < ROWS and 0 <= y < COLS |

## Left out

- Swing plumbing is not modelled: `initGUI`, `main`, the `JFrame`, focus handling, fonts and colours.
- `paintComponent` and every `repaint()` call are left out. They only render and never change the controller's state, so the model has no redraw step.
- The step timer is only a running flag. Its 166 ms period (`STEP_IN_MSEC = 1000 / STEPS_PER_SEC`) and real scheduling are not modelled. A tick is an event that the loop delivers only while the flag is set.
- Key-event delivery is abstracted. Keys are `ArrowUp`, `ArrowDown`, `ArrowLeft`, `ArrowRight` and `OtherKey`, not integer key codes.
- `Matrix` and `Action` internals are not part of this model: grid mechanics, locking, fullness and painting. Their results are parameters, and only the mutating calls made to the board are logged. The `isFull` query is not logged.
- A second call of `initGame` after construction is not modelled: `Controller.GameMain.InitGame` requires that it has not run yet, and the constructor runs it. `GameMain` documents it as run once, from the constructor. A second call would leave the old timer running and add another key listener.
- The commented-out collision checks in `stepGame` and the commented-out statistics in `paintComponent` are dead code and are not modelled.
- The pixel constants `CELL_SIZE`, `PIT_WIDTH` and `PIT_HEIGHT` size only the window and are not modelled.
- `Pit.Contains` keeps the Java method's comparison of x with `ROWS` and y with `COLS`. The two constants are equal (40), so nothing depends on which is which.
- `newGame`, `startGame`, `stopGame` and `stepGame` throw `IllegalStateException`, and nothing in `GameMain` catches it. The model returns it as an error value that leaves the state unchanged, so an event loop can continue after it, as Swing's event thread does after an exception in a handler.
