/** The scenarios of the repository's board tests, replayed on the grid model.  Where a
    test expects behaviour the board does not implement (promotion, rook moves), the
    lemma states what the board actually does: the move is refused. */
module Scenarios {
  import opened Text
  import opened Grids
  import opened Pawns
  import opened Chess

  lemma BlackPawnIsBlack()
    ensures Contains(BlackPawn, "black")
  {
    assert OccursAt(BlackPawn, "black", 0);
  }

  lemma WhitePawnIsWhite()
    ensures Contains(WhitePawn, "white")
  {
    assert OccursAt(WhitePawn, "white", 0);
  }

  /** A white pawn steps from (1,0) to (2,0); it cannot then move sideways. */
  lemma WhitePawnStandardMove()
    ensures Classify(StartGrid(), 1, 0, 2, 0) == SingleStep
    ensures var h := After(StartGrid(), 1, 0, 2, 0);
      && h[2][0] == WhitePawn && h[1][0] == ""
      && Classify(h, 2, 0, 2, 1) == Rejected && After(h, 2, 0, 2, 1) == h
  {
  }

  /** A black pawn steps from (6,0) to (5,0); it cannot then move sideways. */
  lemma BlackPawnStandardMove()
    ensures Classify(StartGrid(), 6, 0, 5, 0) == SingleStep
    ensures var h := After(StartGrid(), 6, 0, 5, 0);
      && h[5][0] == BlackPawn && h[6][0] == ""
      && Classify(h, 5, 0, 5, 1) == Rejected
  {
  }

  /** Both colours may advance two squares from their home row. */
  lemma InitialDoubleMoves()
    ensures Classify(StartGrid(), 1, 0, 3, 0) == DoubleStep
    ensures After(StartGrid(), 1, 0, 3, 0)[3][0] == WhitePawn && After(StartGrid(), 1, 0, 3, 0)[1][0] == ""
    ensures Classify(StartGrid(), 6, 0, 4, 0) == DoubleStep
    ensures After(StartGrid(), 6, 0, 4, 0)[4][0] == BlackPawn && After(StartGrid(), 6, 0, 4, 0)[6][0] == ""
  {
  }

  /** A pawn captures an opposing piece placed diagonally in front of it. */
  lemma PawnCaptures()
    ensures var g := Write(StartGrid(), 2, 1, BlackPawn);
      && Classify(g, 1, 0, 2, 1) == DiagonalCapture
      && After(g, 1, 0, 2, 1)[2][1] == WhitePawn && After(g, 1, 0, 2, 1)[1][0] == ""
    ensures var g := Write(StartGrid(), 5, 1, WhitePawn);
      && Classify(g, 6, 0, 5, 1) == DiagonalCapture
      && After(g, 6, 0, 5, 1)[5][1] == BlackPawn && After(g, 6, 0, 5, 1)[6][0] == ""
  {
    BlackPawnIsBlack();
    WhitePawnIsWhite();
    StartLayout(1, 0);
    StartLayout(6, 0);
    MoveFrame(Write(StartGrid(), 2, 1, BlackPawn), White, 1, 0, 2, 1);
    MoveFrame(Write(StartGrid(), 5, 1, WhitePawn), Black, 6, 0, 5, 1);
  }

  /** Backward moves and advances of three rows are refused for both colours. */
  lemma PawnInvalidMoves()
    ensures Classify(StartGrid(), 1, 0, 0, 0) == Rejected
    ensures Classify(StartGrid(), 1, 0, 4, 0) == Rejected
    ensures Classify(StartGrid(), 6, 0, 7, 0) == Rejected
    ensures Classify(StartGrid(), 6, 0, 3, 0) == Rejected
  {
  }

  /** A black pawn double-steps from (6,2) to (4,2) next to a white pawn on (4,1) or
      (4,3); the white pawn then takes it en passant on (5,2), and (4,2) is cleared. */
  lemma EnPassantAfterDoubleStep(side: int)
    requires side == 1 || side == 3
    ensures var g := Write(Write(StartGrid(), 6, 2, BlackPawn), 4, side, WhitePawn);
      && Classify(g, 6, 2, 4, 2) == DoubleStep
      && var h := After(g, 6, 2, 4, 2);
      && h[4][2] == BlackPawn && h[5][2] == "" && h[6][2] == ""
      && Classify(h, 4, side, 5, 2) == EnPassant
      && var k := After(h, 4, side, 5, 2);
      && k[5][2] == WhitePawn && k[4][side] == "" && k[4][2] == ""
  {
    var g := Write(Write(StartGrid(), 6, 2, BlackPawn), 4, side, WhitePawn);
    StartLayout(5, 2);
    StartLayout(4, 2);
    MoveFrame(g, Black, 6, 2, 4, 2);
    var h := After(g, 6, 2, 4, 2);
    ShortNeverContains(h[5][2], "black");
    BlackPawnIsBlack();
    MoveFrame(h, White, 4, side, 5, 2);
  }

  /** The promotion tests expect a queen, rook, bishop or knight on the far row; the board
      refuses both moves, because the far-row square holds the opposing rook and a pawn
      only moves straight onto an empty square. */
  lemma PromotionTestsRefused()
    ensures Classify(Write(StartGrid(), 6, 0, WhitePawn), 6, 0, 7, 0) == Rejected
    ensures Classify(Write(StartGrid(), 1, 0, BlackPawn), 1, 0, 0, 0) == Rejected
  {
  }

  /** The rook tests expect rook moves; the board moves only pawns.  The first move of each
      valid-move test is refused, so the board is still the starting position when the
      test's second move is tried, and that move is refused too. */
  lemma RookTestsRefused()
    ensures Classify(StartGrid(), 0, 0, 4, 0) == Rejected && After(StartGrid(), 0, 0, 4, 0) == StartGrid()
    ensures Classify(StartGrid(), 4, 0, 4, 4) == Rejected
    ensures Classify(StartGrid(), 0, 0, 1, 1) == Rejected
    ensures Classify(StartGrid(), 0, 0, 2, 1) == Rejected
    ensures Classify(StartGrid(), 7, 0, 3, 0) == Rejected && After(StartGrid(), 7, 0, 3, 0) == StartGrid()
    ensures Classify(StartGrid(), 3, 0, 3, 4) == Rejected
    ensures Classify(StartGrid(), 7, 0, 6, 1) == Rejected
    ensures Classify(StartGrid(), 7, 0, 5, 1) == Rejected
    ensures Classify(Write(StartGrid(), 4, 0, BlackPawn), 0, 0, 4, 0) == Rejected
    ensures Classify(Write(StartGrid(), 3, 0, WhitePawn), 7, 0, 3, 0) == Rejected
  {
  }

  /** En passant looks only at the square beside the pawn: the victim need not be a pawn
      nor have just double-stepped, and whatever stands on the destination is overwritten,
      even a piece of the mover's own colour. */
  lemma EnPassantIgnoresHistoryAndDestination()
    ensures var g := Write(Write(Write(EmptyGrid(), 4, 3, WhitePawn), 4, 4, "black_queen"), 5, 4, "white_knight");
      && Classify(g, 4, 3, 5, 4) == EnPassant
      && var h := After(g, 4, 3, 5, 4);
      && h[5][4] == WhitePawn && h[4][4] == "" && h[4][3] == ""
  {
    var g := Write(Write(Write(EmptyGrid(), 4, 3, WhitePawn), 4, 4, "black_queen"), 5, 4, "white_knight");
    assert OccursAt(g[4][4], "black", 0);
    MissingFirstCharNeverContains(g[5][4], "black");
    MoveFrame(g, White, 4, 3, 5, 4);
  }

  /** A new board reports eight rows and eight columns. */
  method CanCreateBoard() returns (rows: int, columns: int)
    ensures rows == 8 && columns == 8
  {
    var board := new Board();
    rows := board.Rows();
    columns := board.Columns();
  }

  /** On an initialized board a white pawn steps from (1,0) to (2,0) and then cannot
      move sideways to (2,1). */
  method WhiteStepOnBoard() returns (stepped: bool, destination: string, origin: string, sideways: bool)
    ensures stepped && destination == WhitePawn && origin == ""
    ensures !sideways
  {
    var board := new Board();
    board.Initialize();
    stepped := board.MovePiece(1, 0, 2, 0);
    WhitePawnStandardMove();
    destination := board.PieceAt(2, 0);
    origin := board.PieceAt(1, 0);
    sideways := board.MovePiece(2, 0, 2, 1);
  }
}
