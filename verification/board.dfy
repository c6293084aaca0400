/** `Board`: an 8x8 grid of piece strings, updated in place. */
module Chess {
  import opened Text
  import opened Grids
  import opened Pawns

  class Board {
    const grid: array2<string>

    ghost predicate Valid()
      reads this
    {
      grid.Length0 == Size && grid.Length1 == Size
    }

    /** The grid as a value. */
    ghost function Cells(): (g: Grid)
      reads this, grid
      requires Valid()
      ensures WellFormed(g)
      ensures forall r, c :: InBounds(r, c) ==> g[r][c] == grid[r, c]
    {
      var a := grid;
      seq(Size, r requires 0 <= r < Size reads a =>
        seq(Size, c requires 0 <= c < Size reads a => a[r, c]))
    }

    /** A fresh board: eight rows of eight empty squares. */
    constructor ()
      ensures Valid() && fresh(grid)
      ensures Cells() == EmptyGrid()
    {
      grid := new string[Size, Size]((r, c) => "");
      new;
      SameSquares(Cells(), EmptyGrid());
    }

    /** Writes the starting layout on rows 0, 1, 6 and 7; rows 2 to 5 are not touched. */
    method Initialize()
      requires Valid()
      modifies grid
      ensures Valid()
      ensures Cells() == Initialized(old(Cells()))
    {
      for i := 0 to 8
        invariant forall c :: 0 <= c < i ==> grid[1, c] == WhitePawn && grid[6, c] == BlackPawn
        invariant forall r, c :: InBounds(r, c) && ((r != 1 && r != 6) || i <= c)
                    ==> grid[r, c] == old(grid[r, c])
      {
        grid[1, i] := "white_pawn";
        grid[6, i] := "black_pawn";
      }

      // Rooks, knights, bishops, queens, kings: each square assignment is a SetPieceAt.
      ghost var pawnsDone := Cells();
      SetPieceAt(0, 0, "white_rook");
      SetPieceAt(0, 7, "white_rook");
      SetPieceAt(7, 0, "black_rook");
      SetPieceAt(7, 7, "black_rook");

      SetPieceAt(0, 1, "white_knight");
      SetPieceAt(0, 6, "white_knight");
      SetPieceAt(7, 1, "black_knight");
      SetPieceAt(7, 6, "black_knight");

      SetPieceAt(0, 2, "white_bishop");
      SetPieceAt(0, 5, "white_bishop");
      SetPieceAt(7, 2, "black_bishop");
      SetPieceAt(7, 5, "black_bishop");

      SetPieceAt(0, 3, "white_queen");
      SetPieceAt(7, 3, "black_queen");

      SetPieceAt(0, 4, "white_king");
      SetPieceAt(7, 4, "black_king");

      assert Cells() == PlaceBackRanks(pawnsDone);
      BackRanksFrom(old(Cells()), pawnsDone);
    }

    function Rows(): (n: int)
      reads this
      requires Valid()
      ensures n == Size
    {
      grid.Length0
    }

    function Columns(): (n: int)
      reads this
      requires Valid()
      ensures n == Size
    {
      grid.Length1
    }

    /** The string on square `(row, col)`; the source does no bounds check. */
    function PieceAt(row: int, col: int): (p: string)
      reads this, grid
      requires Valid() && InBounds(row, col)
      ensures p == Cells()[row][col]
    {
      grid[row, col]
    }

    /** Overwrites square `(row, col)` with any string; the source does no bounds check. */
    method SetPieceAt(row: int, col: int, piece: string)
      requires Valid() && InBounds(row, col)
      modifies grid
      ensures Valid()
      ensures Cells() == Write(old(Cells()), row, col, piece)
    {
      grid[row, col] := piece;
      SameSquares(Cells(), Write(old(Cells()), row, col, piece));
    }

    /** Attempts a pawn move.  Returns whether one of the four branches of the moving
        pawn's colour fired; the grid becomes `After` of the old grid, which is the old
        grid itself when the move is refused. */
    method MovePiece(startRow: int, startCol: int, endRow: int, endCol: int) returns (ok: bool)
      requires Valid() && InBounds(startRow, startCol) && InBounds(endRow, endCol)
      modifies grid
      ensures Valid()
      ensures ok <==> Classify(old(Cells()), startRow, startCol, endRow, endCol) != Rejected
      ensures Cells() == After(old(Cells()), startRow, startCol, endRow, endCol)
      ensures !ok ==> Cells() == old(Cells())
    {
      ghost var g := Cells();
      ghost var b := Classify(g, startRow, startCol, endRow, endCol);
      var piece := PieceAt(startRow, startCol);

      if piece == "white_pawn" {
        BranchGuards(g, White, startRow, startCol, endRow, endCol);
        if startRow == 1 && endRow == 3 && startCol == endCol && grid[2, endCol] == "" && grid[3, endCol] == "" {
          assert b == DoubleStep;
          SetPieceAt(endRow, endCol, "white_pawn");
          SetPieceAt(startRow, startCol, "");
          return true;
        }
        if endRow == startRow + 1 && startCol == endCol && grid[endRow, endCol] == "" {
          assert b == SingleStep;
          SetPieceAt(endRow, endCol, "white_pawn");
          SetPieceAt(startRow, startCol, "");
          return true;
        }
        if endRow == startRow + 1 && (endCol == startCol + 1 || endCol == startCol - 1) && Find(grid[endRow, endCol], "black").Some? {
          assert b == DiagonalCapture;
          SetPieceAt(endRow, endCol, "white_pawn");
          SetPieceAt(startRow, startCol, "");
          return true;
        }
        if startRow == 4 && endRow == 5 && (endCol == startCol + 1 || endCol == startCol - 1) && Find(grid[4, endCol], "black").Some? {
          assert b == EnPassant;
          SetPieceAt(endRow, endCol, "white_pawn");
          SetPieceAt(startRow, endCol, "");
          SetPieceAt(startRow, startCol, "");
          return true;
        }
      } else if piece == "black_pawn" {
        BranchGuards(g, Black, startRow, startCol, endRow, endCol);
        if startRow == 6 && endRow == 4 && startCol == endCol && grid[5, endCol] == "" && grid[4, endCol] == "" {
          assert b == DoubleStep;
          SetPieceAt(endRow, endCol, "black_pawn");
          SetPieceAt(startRow, startCol, "");
          return true;
        }
        if endRow == startRow - 1 && startCol == endCol && grid[endRow, endCol] == "" {
          assert b == SingleStep;
          SetPieceAt(endRow, endCol, "black_pawn");
          SetPieceAt(startRow, startCol, "");
          return true;
        }
        if endRow == startRow - 1 && (endCol == startCol + 1 || endCol == startCol - 1) && Find(grid[endRow, endCol], "white").Some? {
          assert b == DiagonalCapture;
          SetPieceAt(endRow, endCol, "black_pawn");
          SetPieceAt(startRow, startCol, "");
          return true;
        }
        if startRow == 3 && endRow == 2 && (endCol == startCol + 1 || endCol == startCol - 1) && Find(grid[3, endCol], "white").Some? {
          assert b == EnPassant;
          SetPieceAt(endRow, endCol, "black_pawn");
          SetPieceAt(startRow, endCol, "");
          SetPieceAt(startRow, startCol, "");
          return true;
        }
      }

      assert b == Rejected;
      return false;
    }
  }
}
