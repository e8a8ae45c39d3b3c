/** The game pit: a board of ROWS by COLS cells, and the bounds check its
    panel offers for collision detection. */
module Pit {
  const ROWS: int := 40
  const COLS: int := 40

  /** Whether cell (x, y) lies on the board. x is checked against ROWS and
      y against COLS. */
  function Contains(x: int, y: int): (r: bool)
    ensures r <==> 0 <= x < ROWS && 0 <= y < COLS
  {
    if x < 0 || x >= ROWS then false
    else if y < 0 || y >= COLS then false
    else true
  }
}
