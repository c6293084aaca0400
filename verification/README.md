# Chess board: a verified model of `Board`

This project models the `Board` class of a small C++ chess game (`Board.cpp`). A board is
an 8×8 grid of strings. `""` is an empty square and strings such as `"white_pawn"` or
`"black_rook"` are pieces. The class can:

- build an empty board;
- write the starting layout (`initialize`);
- report its dimensions;
- read or overwrite a single square;
- validate and perform pawn moves (`movePiece`).

Only pawns move. `movePiece` tries four guarded branches for the moving pawn's colour, in
order: double step, single step, diagonal capture, en passant. The first branch whose guard
holds writes two or three squares and returns `true`. If no guard holds, it returns `false`
and touches nothing. The capture guards use substring search: the target square's string
must contain the opposing colour's word (`"black"` or `"white"`).

## Layout

- `text.dfy`, module `Text`. `Contains` is the substring predicate. `Find` is
  `std::string::find`, where `None` stands for `npos`. It is proved to return the first
  occurrence, and to return one exactly when `Contains` holds.
- `grids.dfy`, module `Grids`. The board as a value (`Grid = seq<seq<string>>`):
  - `Write`, a one-square overwrite;
  - the starting layout as `Initialized`;
  - a count of occupied squares, with the exact effect of a write on it.
- `pawns.dfy`, module `Pawns`. The rule of `movePiece` as functions on a grid:
  - `Classify` says which branch fires. It is written once for both colours, using the
    forward direction, home row and en-passant row of each colour.
  - `After` is the grid after the move.
  - Lemmas give each branch's guard, the geometry of accepted moves, the exact frame of
    each branch, the absence of promotion and piece conservation.
- `board.dfy`, module `Chess`. The class `Board` holds an `array2<string>`. Its ghost
  function `Cells()` gives the grid as a value. Each method's postcondition ties the new
  `Cells()` to the grid functions applied to the old `Cells()`. `MovePiece` follows the
  C++ statement by statement, with rows written as literals for each colour. Its
  postcondition links it to the colour-generic `Classify` and `After`.
  The pawn loop of `Initialize` writes the array directly, as the C++ loop does. Every
  other square write goes through `SetPieceAt`: the sixteen back-rank assignments of
  `initialize` and the `grid[r][c] = …` assignments of `movePiece`. Each such call has
  exactly the effect of the assignment it stands for.
- `scenarios.dfy`, module `Scenarios`. The repository's test scenarios, replayed on the
  grid model, and two of them replayed on the class itself.

The model follows `Board.cpp` wherever the rest of the repository expects more.
`include/Board.h` declares moves for rooks, bishops and knights, and `test_board.cpp`
expects promotion and rook moves. Full chess rules would also call for bounds errors, an
en-passant history and check detection. `Board.cpp` implements none of these, so neither
does the model.

En passant in `Board.cpp` looks only at the square beside the moving pawn, at
`(startRow, endCol)`. It does not check:

- that the victim is a pawn;
- that the victim has just double-stepped;
- what stands on the destination, which is overwritten even when it holds a piece of the
  mover's own colour.

`Pawns.EnPassantGuard` and `Scenarios.EnPassantIgnoresHistoryAndDestination` state this
behaviour as it is.

Some tests in `test_board.cpp` expect promotion (lines 240-266) or rook moves (lines
269-351). `Board.cpp` does not do either. The scenario lemmas prove that every `movePiece`
call of those tests is refused. In the rook tests the first move is refused, so the
second move of each test starts from the starting position.

## Model

| member | source | states |
|---|---|---|
| `Chess.Board.constructor` | Board.cpp:3 | a new board is 8×8 and every square holds `""` |
| `Grids.EmptyGrid` | Board.cpp:3 | the constructed grid is well formed and every square is `""` |
| `Chess.Board.Initialize` | Board.cpp:5-37 | the new grid is `Initialized` of the old one: the pawn loop fills rows 1 and 6, the straight-line writes fill rows 0 and 7 |
| `Grids.Initialized` | Board.cpp:5-37 | row 1 is all `"white_pawn"`, row 6 all `"black_pawn"`, rows 0 and 7 are rook-knight-bishop-queen-king-bishop-knight-rook of their colour, rows 2 to 5 are unchanged |
| `Grids.PlaceBackRanks` | Board.cpp:12-36 | the sixteen back-rank writes, in source order, make row 0 rook-knight-bishop-queen-king-bishop-knight-rook in white and row 7 the same in black, and leave rows 1 to 6 unchanged |
| `Grids.BackRanksFrom` | Board.cpp:12-36 | the sixteen back-rank writes, applied after the pawn rows, give exactly `Initialized` of the original grid |
| `Grids.InitializedIdempotent` | Board.cpp:5-37 | initializing twice gives the same grid as initializing once |
| `Grids.InitializedOverwritesHomeRows` | Board.cpp:5-37 | the result of `initialize` depends only on rows 2 to 5 of the old grid |
| `Grids.StartLayout` | Board.cpp:3-37 | the starting position, square by square: pieces on rows 0, 1, 6, 7 and `""` on rows 2 to 5 |
| `Chess.Board.Rows` | Board.cpp:39-41 | the board has 8 rows |
| `Chess.Board.Columns` | Board.cpp:43-45 | the board has 8 columns |
| `Chess.Board.PieceAt` | Board.cpp:47-49 | returns the string on the square; needs in-range coordinates, as the source indexes unchecked |
| `Chess.Board.SetPieceAt` | Board.cpp:51-53 | the new grid is `Write` of the old one at that square; any string is accepted |
| `Grids.Write` | Board.cpp:51-53 | the written square reads back the new string and every other square is unchanged |
| `Grids.OccupiedWrite` | Board.cpp:51-53 | one write changes the number of non-empty squares by what it removed and what it put there |
| `Text.Contains` | Board.cpp:69 | definition: the word occurs somewhere in the string; this is what `find(word) != npos` tests |
| `Text.FindFrom` | Board.cpp:69-74 | returns the first occurrence of the word at or after a position, and `None` exactly when there is none |
| `Text.Find` | Board.cpp:69-74 | `find(word) != npos` holds exactly when the word is a substring; the index returned is the first occurrence |
| `Pawns.PawnColour` | Board.cpp:56-58 | only the exact strings `"white_pawn"` and `"black_pawn"` give a movable colour |
| `Pawns.DoubleStepGuard` | Board.cpp:59 | definition: origin on the home row (1 for white, 6 for black, Board.cpp:81), destination two rows forward on the same file, the crossed square and the destination both `""` |
| `Pawns.SingleStepGuard` | Board.cpp:64 | definition: destination one row forward on the same file and `""` (black at Board.cpp:86) |
| `Pawns.CaptureGuard` | Board.cpp:69 | definition: destination one row forward and one column across, holding a string that contains the opposing colour's word (black at Board.cpp:91) |
| `Pawns.EnPassantGuard` | Board.cpp:74 | definition: origin on row 4 for white or 3 for black (Board.cpp:96), destination one row forward and one column across, and the square beside the origin on the destination's file contains the opposing colour's word |
| `Pawns.Classify` | Board.cpp:58-101 | the branch taken is the first of the four guards that holds for the origin pawn's colour; any accepted move starts from an exact pawn string and changes row |
| `Pawns.Apply` | Board.cpp:60-99 | an accepted branch writes the mover's pawn string on the destination and `""` on the origin; the definition performs the writes in source order, with en passant also writing `""` beside the origin |
| `Pawns.After` | Board.cpp:55-105 | the grid after the call; it differs from the old grid exactly when `Classify` accepts the move |
| `Chess.Board.MovePiece` | Board.cpp:55-105 | returns `true` exactly when `Classify` picks a branch; the new grid is `After` of the old grid; a refused move leaves every square unchanged |
| `Pawns.OnlyPawnsMove` | Board.cpp:55-58 | a move is accepted only from a square holding exactly a pawn string; from any other square the grid is unchanged |
| `Pawns.BranchGuards` | Board.cpp:58-101 | each branch is taken exactly when its guard holds (en passant also needs the diagonal capture to fail); the move is refused exactly when no guard holds |
| `Pawns.AcceptedGeometry` | Board.cpp:59-101 | an accepted move goes forward one or two rows and at most one column across; two rows only from the home row, along the file, over an empty square onto an empty square; a straight move lands on an empty square |
| `Pawns.MoveFrame` | Board.cpp:60-99 | after an accepted move the destination holds the mover's string and the origin is `""`; en passant also clears `(startRow, endCol)`; every other square is unchanged |
| `Pawns.NoPromotion` | Board.cpp:64-66 | a pawn reaching the far row is still written as a pawn |
| `Pawns.OccupiedAfterMove` | Board.cpp:59-101 | steps keep the number of pieces; a diagonal capture removes exactly one; en passant removes the victim plus whatever stood on the destination |
| `Scenarios.WhitePawnStandardMove` | test_board.cpp:54-65 | from the start, (1,0)→(2,0) is a single step leaving a pawn on (2,0) and `""` on (1,0); (2,0)→(2,1) is then refused |
| `Scenarios.BlackPawnStandardMove` | test_board.cpp:67-78 | from the start, (6,0)→(5,0) is a single step; (5,0)→(5,1) is then refused |
| `Scenarios.InitialDoubleMoves` | test_board.cpp:80-98 | from the start, both colours may double-step from their home row |
| `Scenarios.PawnCaptures` | test_board.cpp:100-124 | a pawn takes an opposing pawn placed diagonally in front of it |
| `Scenarios.PawnInvalidMoves` | test_board.cpp:126-146 | backward moves and three-row advances are refused |
| `Scenarios.EnPassantAfterDoubleStep` | test_board.cpp:148-238 | after the black double step (6,2)→(4,2), a white pawn on (4,1) or (4,3) takes en passant on (5,2) and (4,2) is cleared |
| `Scenarios.PromotionTestsRefused` | test_board.cpp:240-266 | the moves of the promotion tests are refused by the board |
| `Scenarios.RookTestsRefused` | test_board.cpp:269-351 | all ten `movePiece` calls of the rook tests are refused: the vertical, horizontal, diagonal and knight-like moves and both captures; the first refused move leaves the starting position unchanged |
| `Scenarios.CanCreateBoard` | test_board.cpp:4-8 | a new `Board` reports 8 rows and 8 columns |
| `Scenarios.WhiteStepOnBoard` | test_board.cpp:54-65 | on an initialized `Board`, the step (1,0)→(2,0) succeeds, leaves `"white_pawn"` on (2,0) and `""` on (1,0), and the sideways move (2,0)→(2,1) then fails |
| `Scenarios.EnPassantIgnoresHistoryAndDestination` | Board.cpp:74-79 | en passant fires against a queen that never double-stepped and overwrites the mover's own knight on the destination |

## Left out

- Out-of-range coordinates: the source indexes the grid unchecked, which is undefined behaviour in C++. The model requires every coordinate to lie in 0..7 instead of modelling an error. For `MovePiece` this also excludes some off-board destinations that are well defined in C++, where every guard fails before any out-of-range square is read and the call returns `false`. An example is `movePiece(1, 0, 9, 9)` with a white pawn on (1,0).
- `movePawn`, `moveRook`, `moveBishop`, `moveKnight`, `isRookMoveValid`, `isBishopMoveValid`, `isKnightMoveValid`, `initializeRow` and `initializePiece` are declared in include/Board.h. No definition of them exists in the source files, so they are not part of this model.
- Promotion, moves of pieces other than pawns, check detection and an en-passant history: `Board.cpp` implements none of them, so the model has none of them either.
- The expectations of the promotion tests and rook tests in test_board.cpp are not modelled as behaviour, because `Board.cpp` contradicts them. The scenario lemmas state the refusal instead.
- `Chess.Board.Rows` and `Chess.Board.Columns`: C++ converts `size()` to `int`. For an 8×8 board this conversion cannot overflow, so the model does not represent it.
- The GoogleTest harness and the test program's `main` are left out. They are only runnable scaffolding around the scenarios above.
