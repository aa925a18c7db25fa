# Falling-block prototype: the frame update of the falling piece

This project models the playable core of an early terminal falling-block
prototype, `tetris.c`. The program keeps one falling piece (a
"tetrimino": anchor `x`, `y`, rotation `angle`, type tag) together with a quit
flag `end_game`, a frame counter `total_time` and the last key read. Each frame,
`update_game` reads one key and changes this state:

- `h` moves the piece one column left, `l` one column right, `j` one row down;
- `q` sets the quit flag;
- on every 30th frame, gravity moves the piece one row down;
- a piece below row `BLOCK_HEIGHT` (22) goes back to row 0;
- a piece past column `BLOCK_WIDTH` (10) wraps to column 0, and one left of
  column 0 wraps to column 10.

`main` starts with an L piece at (5, 0) and runs frames until the quit flag is set.
Each frame is an update followed by one tick of `total_time`. The only shape the
drawing code implements is the L piece.

The Dafny model has two modules:

- `Pieces` (`pieces.dfy`): the `Tetrimino` value and `PieceCells`, the cells
  drawn for a piece. An L piece covers four cells. For I, O, T, J, Z and S it
  returns `NotDoneYet`, the "not done yet" assertion. Any other tag draws
  nothing, because the `switch` has no `default`.
- `Game` (`game.dfy`): the specification functions `Step` (one update), `Tick`
  (one loop iteration) and `Play` (the loop), with lemmas about them. The class
  `Game` holds the program's globals as fields. Its `Update` method changes them
  step by step, as the C function does, and is proved to compute `Step`. Its
  `Run` method is the `while (!end_game)` loop, and is proved to compute `Play`.

The keyboard read is an input parameter. `Run` takes the keys as a finite
sequence, one key per frame. The read waits at most 1 ms for a key. A frame with
no key press gets `wgetch`'s `ERR`, and the model represents it by any character
other than h, l, j and q. Such a frame still applies gravity and the wraps.

`BLOCK_HEIGHT` is 22 in this program (a conventional board has 20 rows); the
model uses 22.

The program has no collision checks, locking, line clearing, scoring, levels,
rotation or next-piece logic.

## Model

| member | source | states |
|---|---|---|
| `Pieces.PieceCells` | tetris.c:75-109 | L draws four cells; I, O, T, J, Z and S hit the "not done yet" assertion; any other tag draws nothing |
| `Pieces.LPieceCells` | tetris.c:90-95 | the L piece at (x, y) covers exactly (x,y), (x,y+1), (x,y+2), (x+1,y+2), four distinct cells |
| `Pieces.LPieceIsTranslatedShape` | tetris.c:90-95 | the L cells are the anchor plus fixed offsets, and they do not depend on the rotation angle |
| `Pieces.LPieceMoves` | tetris.c:90-95 | moving the anchor by (dx, dy) moves each drawn cell by (dx, dy) |
| `Pieces.LPieceExtent` | tetris.c:90-95 | an anchor in [0,W]x[0,H] keeps the L piece in columns [0,W+1] and rows [0,H+2]; the corner anchor reaches (W+1, H+2) |
| `Game.KeyMove` | tetris.c:46-61 | h moves the anchor one column left, l one column right, j one row down; other keys do not move it; angle and type are kept |
| `Game.Gravity` | tetris.c:63-64 | on a frame whose number is a multiple of 30 the anchor moves one row down, otherwise it stays; column, angle and type are kept |
| `Game.ResetY` | tetris.c:66-67 | a row past 22 becomes 0, any other row is kept; so the row is at most 22 afterwards and a non-negative row stays non-negative |
| `Game.WrapX` | tetris.c:69-72 | a column above 10 becomes 0, one below 0 becomes 10, and one in [0, 10] is kept; so the column is in [0, 10] afterwards |
| `Game.Step` | tetris.c:40-73 | after any update, x is in [0, 10] and y is at most 22; y stays non-negative; angle and type never change; the quit flag is set iff it was already set or the key is q |
| `Game.HorizontalKeys` | tetris.c:47-72 | h moves x left by one and wraps 0 to 10; l moves x right by one and wraps 10 to 0; any other key leaves x unchanged |
| `Game.VerticalMotion` | tetris.c:55-67 | from y in [0,22], y moves down one row for j and one for gravity, resets to 0 past 22, and stays put iff neither applies |
| `Game.GravityRule` | tetris.c:63-67 | on a frame that is a multiple of 30, a non-j key still moves y down one row (22 goes to 0); on other frames y does not change |
| `Game.OtherKeys` | tetris.c:46-72 | a key other than h/l/j/q leaves x and the quit flag unchanged and moves the piece only by gravity |
| `Game.Tick` | tetris.c:147-156 | one loop iteration is an update plus exactly one frame tick |
| `Game.Play` | tetris.c:147-156 | the loop consumes at most one key per frame; it keeps angle and type, keeps the piece in bounds, and never clears the quit flag |
| `Game.PlayStopsAfterFirstQuit` | tetris.c:147-156 | from a running state, the loop ends with the quit flag set iff a q was read; it runs exactly up to and including the first q, or else uses every key |
| `Game.ReachableStates` | tetris.c:136-156 | every state the loop reaches from the start holds an in-bounds L piece at angle 0 |
| `Game.ReachableDrawnCells` | tetris.c:90-95 | the L piece of any reachable state is drawn within columns [0, 11] and rows [0, 24], beyond the 10 x 22 board |
| `Game.PieceLeavesBoard` | tetris.c:69-72 | five l presses from the start put the anchor at column 10, and the L's foot is then drawn in column 11 |
| `Game.Game.constructor` | tetris.c:11-15 | the globals start as the initial state: no quit, frame 0, last key l, and an L piece at (5,0) with angle 0 (the piece is set at line 136) |
| `Game.Game.Update` | tetris.c:40-73 | the in-place update of the globals computes `Step` on the old state and leaves the piece within the wrap ranges |
| `Game.Game.Run` | tetris.c:147-156 | the in-place loop computes `Play` and returns the number of frames run, which equals the growth of the frame counter |

## Left out

- Terminal I/O: all ncurses calls and `print_pixel`. Keys become an input parameter. `PieceCells` gives the cells that would be drawn.
- `wgetch` results are taken as plain characters. A frame with no key press (`ERR`) is represented by any character other than h, l, j and q. The exact `char` value that `ERR` truncates to is not modelled.
- `usleep(delay)` pacing and the `delay` variable, because they are wall-clock timing.
- `display_game` and the `blocks` board. `display_game` draws the current piece (as `PieceCells` describes) and reads `blocks`. Nothing ever writes `blocks`: the only writes are commented out.
- Game.Play, Game.Game.Run: the abort of `display_game` after each update on a non-L piece (the "not done yet" assertion) is not modelled. `ReachableStates` proves that only L pieces are reachable from the start.
- Game.Game.Run: the program runs frames until q, with or without a key press. `Run` takes a finite sequence of keys, so a run without q models a prefix of the program's run.
- Game.GameState: `total_time` is unbounded. The C `int` overflow after 2^31 frames is not modelled. The counter starts at 0 and only grows, so C's `%` and Dafny's `%` agree on it.
- Collision, locking, row clearing, scoring, levels, rotation and next-piece generation are not part of this model. `tetris.c` has none of them, and `angle` is never changed.
