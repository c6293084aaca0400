/** The pawn rule of `Board::movePiece`, as functions on a grid.  Only a square holding
    exactly "white_pawn" or "black_pawn" can move.  Each colour has four guarded
    branches, tried in order: double step, single step, diagonal capture, en passant.
    The first one whose guard holds is applied; if none holds the move is refused. */
module Pawns {
  import opened Text
  import opened Grids

  datatype Colour = White | Black

  /** Which branch of the pawn rule a move takes. */
  datatype Branch = Rejected | DoubleStep | SingleStep | DiagonalCapture | EnPassant

  /** The colour of a movable pawn; any other string, including other pieces, is not movable. */
  function PawnColour(piece: string): (r: Option<Colour>)
    ensures r == Some(White) <==> piece == WhitePawn
    ensures r == Some(Black) <==> piece == BlackPawn
  {
    if piece == WhitePawn then Some(White)
    else if piece == BlackPawn then Some(Black)
    else None
  }

  function PawnName(c: Colour): string
  {
    if c == White then WhitePawn else BlackPawn
  }

  /** The word a diagonal or en-passant victim's string must contain. */
  function EnemyWord(c: Colour): string
  {
    if c == White then "black" else "white"
  }

  /** White moves towards row 7, black towards row 0. */
  function Forward(c: Colour): int
  {
    if c == White then 1 else -1
  }

  /** The only row a double step may start from. */
  function HomeRow(c: Colour): int
  {
    if c == White then 1 else 6
  }

  /** The only row an en-passant capture may start from. */
  function EnPassantRow(c: Colour): int
  {
    if c == White then 4 else 3
  }

  /** The far row, where FIDE rules would promote. */
  function LastRow(c: Colour): int
  {
    if c == White then 7 else 0
  }

  predicate Diagonal(sc: int, ec: int)
  {
    ec == sc + 1 || ec == sc - 1
  }

  // The guard of each branch, read on the grid before the move.

  ghost predicate DoubleStepGuard(g: Grid, c: Colour, sr: int, sc: int, er: int, ec: int)
    requires WellFormed(g) && InBounds(sr, sc) && InBounds(er, ec)
  {
    sr == HomeRow(c) && er == sr + 2 * Forward(c) && sc == ec
    && g[sr + Forward(c)][ec] == "" && g[er][ec] == ""
  }

  ghost predicate SingleStepGuard(g: Grid, c: Colour, sr: int, sc: int, er: int, ec: int)
    requires WellFormed(g) && InBounds(sr, sc) && InBounds(er, ec)
  {
    er == sr + Forward(c) && sc == ec && g[er][ec] == ""
  }

  ghost predicate CaptureGuard(g: Grid, c: Colour, sr: int, sc: int, er: int, ec: int)
    requires WellFormed(g) && InBounds(sr, sc) && InBounds(er, ec)
  {
    er == sr + Forward(c) && Diagonal(sc, ec) && Contains(g[er][ec], EnemyWord(c))
  }

  /** The victim square is `(sr, ec)`, beside the origin; the destination is not looked at. */
  ghost predicate EnPassantGuard(g: Grid, c: Colour, sr: int, sc: int, er: int, ec: int)
    requires WellFormed(g) && InBounds(sr, sc) && InBounds(er, ec)
  {
    sr == EnPassantRow(c) && er == sr + Forward(c) && Diagonal(sc, ec)
    && Contains(g[sr][ec], EnemyWord(c))
  }

  /** The branch `movePiece(sr, sc, er, ec)` takes on grid `g`: the first guard that holds. */
  ghost function Classify(g: Grid, sr: int, sc: int, er: int, ec: int): (b: Branch)
    requires WellFormed(g) && InBounds(sr, sc) && InBounds(er, ec)
    ensures b != Rejected ==> PawnColour(g[sr][sc]).Some? && sr != er
  {
    match PawnColour(g[sr][sc])
    case None => Rejected
    case Some(c) =>
      if DoubleStepGuard(g, c, sr, sc, er, ec) then DoubleStep
      else if SingleStepGuard(g, c, sr, sc, er, ec) then SingleStep
      else if CaptureGuard(g, c, sr, sc, er, ec) then DiagonalCapture
      else if EnPassantGuard(g, c, sr, sc, er, ec) then EnPassant
      else Rejected
  }

  /** The writes of an accepted branch, in the order the source performs them. */
  ghost function Apply(g: Grid, c: Colour, b: Branch, sr: int, sc: int, er: int, ec: int): (h: Grid)
    requires WellFormed(g) && InBounds(sr, sc) && InBounds(er, ec)
    ensures WellFormed(h)
    ensures b != Rejected && sr != er ==> h[er][ec] == PawnName(c) && h[sr][sc] == ""
  {
    match b
    case Rejected => g
    case EnPassant => Write(Write(Write(g, er, ec, PawnName(c)), sr, ec, ""), sr, sc, "")
    case _ => Write(Write(g, er, ec, PawnName(c)), sr, sc, "")
  }

  /** The grid after `movePiece(sr, sc, er, ec)`.  It differs from `g` exactly when the
      move is accepted, since an accepted move always empties the origin. */
  ghost function After(g: Grid, sr: int, sc: int, er: int, ec: int): (h: Grid)
    requires WellFormed(g) && InBounds(sr, sc) && InBounds(er, ec)
    ensures WellFormed(h)
    ensures h == g <==> Classify(g, sr, sc, er, ec) == Rejected
  {
    var b := Classify(g, sr, sc, er, ec);
    if b == Rejected then g else Apply(g, PawnColour(g[sr][sc]).value, b, sr, sc, er, ec)
  }

  // ---------------------------------------------------------------------------
  // Properties of the rule

  /** Only a square holding exactly "white_pawn" or "black_pawn" ever moves; for any
      other origin the grid is left as it was. */
  lemma OnlyPawnsMove(g: Grid, sr: int, sc: int, er: int, ec: int)
    requires WellFormed(g) && InBounds(sr, sc) && InBounds(er, ec)
    ensures Classify(g, sr, sc, er, ec) != Rejected ==> g[sr][sc] == WhitePawn || g[sr][sc] == BlackPawn
    ensures g[sr][sc] != WhitePawn && g[sr][sc] != BlackPawn ==> After(g, sr, sc, er, ec) == g
  {
  }

  /** The guards are mutually exclusive, so each branch is taken exactly when its own
      guard holds, except that en passant also needs the plain capture to have failed. */
  lemma BranchGuards(g: Grid, c: Colour, sr: int, sc: int, er: int, ec: int)
    requires WellFormed(g) && InBounds(sr, sc) && InBounds(er, ec)
    requires g[sr][sc] == PawnName(c)
    ensures Classify(g, sr, sc, er, ec) == DoubleStep <==> DoubleStepGuard(g, c, sr, sc, er, ec)
    ensures Classify(g, sr, sc, er, ec) == SingleStep <==> SingleStepGuard(g, c, sr, sc, er, ec)
    ensures Classify(g, sr, sc, er, ec) == DiagonalCapture <==> CaptureGuard(g, c, sr, sc, er, ec)
    ensures Classify(g, sr, sc, er, ec) == EnPassant
            <==> EnPassantGuard(g, c, sr, sc, er, ec) && !CaptureGuard(g, c, sr, sc, er, ec)
    ensures Classify(g, sr, sc, er, ec) == Rejected
            <==> !DoubleStepGuard(g, c, sr, sc, er, ec) && !SingleStepGuard(g, c, sr, sc, er, ec)
                 && !CaptureGuard(g, c, sr, sc, er, ec) && !EnPassantGuard(g, c, sr, sc, er, ec)
  {
  }

  /** An accepted pawn move goes forward one or two rows, never backward or sideways, and
      at most one column across; two rows only from the home row along the file with the
      crossed square and the destination empty. */
  lemma AcceptedGeometry(g: Grid, c: Colour, sr: int, sc: int, er: int, ec: int)
    requires WellFormed(g) && InBounds(sr, sc) && InBounds(er, ec)
    requires g[sr][sc] == PawnName(c) && Classify(g, sr, sc, er, ec) != Rejected
    ensures 1 <= (er - sr) * Forward(c) <= 2
    ensures -1 <= ec - sc <= 1
    ensures er == sr + 2 * Forward(c)
            ==> sr == HomeRow(c) && sc == ec && g[sr + Forward(c)][ec] == "" && g[er][ec] == ""
    ensures sc == ec ==> g[er][ec] == ""
  {
  }

  /** The squares a move of branch `b` writes: destination and origin, plus the victim
      beside the origin for en passant. */
  predicate Touched(b: Branch, sr: int, sc: int, er: int, ec: int, i: int, j: int)
  {
    (i == er && j == ec) || (i == sr && j == sc) || (b == EnPassant && i == sr && j == ec)
  }

  /** A successful move leaves the mover on the destination and clears the origin (and,
      for en passant, the victim square); every other square is unchanged. */
  lemma MoveFrame(g: Grid, c: Colour, sr: int, sc: int, er: int, ec: int)
    requires WellFormed(g) && InBounds(sr, sc) && InBounds(er, ec)
    requires g[sr][sc] == PawnName(c) && Classify(g, sr, sc, er, ec) != Rejected
    ensures var h, b := After(g, sr, sc, er, ec), Classify(g, sr, sc, er, ec);
      && WellFormed(h)
      && h[er][ec] == PawnName(c)
      && h[sr][sc] == ""
      && (b == EnPassant ==> h[sr][ec] == "")
      && forall i, j :: InBounds(i, j) && !Touched(b, sr, sc, er, ec, i, j) ==> h[i][j] == g[i][j]
  {
  }

  /** There is no promotion: a pawn reaching the far row is still written as a pawn. */
  lemma NoPromotion(g: Grid, c: Colour, sr: int, sc: int, er: int, ec: int)
    requires WellFormed(g) && InBounds(sr, sc) && InBounds(er, ec)
    requires g[sr][sc] == PawnName(c) && Classify(g, sr, sc, er, ec) != Rejected
    requires er == LastRow(c)
    ensures After(g, sr, sc, er, ec)[er][ec] == PawnName(c)
  {
  }

  /** A string containing a colour word is not the empty square. */
  lemma ContainsWordNotEmpty(s: string, c: Colour)
    requires Contains(s, EnemyWord(c))
    ensures s != ""
  {
  }

  /** Piece conservation: a step keeps the number of pieces; a diagonal capture removes
      exactly one; en passant removes the victim and whatever stood on the destination. */
  lemma OccupiedAfterMove(g: Grid, c: Colour, sr: int, sc: int, er: int, ec: int)
    requires WellFormed(g) && InBounds(sr, sc) && InBounds(er, ec)
    requires g[sr][sc] == PawnName(c)
    ensures var b := Classify(g, sr, sc, er, ec);
      && (b == Rejected || b == DoubleStep || b == SingleStep
          ==> Occupied(After(g, sr, sc, er, ec)) == Occupied(g))
      && (b == DiagonalCapture ==> Occupied(After(g, sr, sc, er, ec)) == Occupied(g) - 1)
      && (b == EnPassant
          ==> Occupied(After(g, sr, sc, er, ec)) == Occupied(g) - 1 - Occupancy(g[er][ec]))
  {
    assert PawnColour(g[sr][sc]) == Some(c);
    var b := Classify(g, sr, sc, er, ec);
    if b != Rejected {
      var g1 := Write(g, er, ec, PawnName(c));
      OccupiedWrite(g, er, ec, PawnName(c));
      if b == EnPassant {
        var g2 := Write(g1, sr, ec, "");
        OccupiedWrite(g1, sr, ec, "");
        OccupiedWrite(g2, sr, sc, "");
        ContainsWordNotEmpty(g[sr][ec], c);
      } else {
        OccupiedWrite(g1, sr, sc, "");
        if b == DiagonalCapture {
          ContainsWordNotEmpty(g[er][ec], c);
        }
      }
    }
  }
}
