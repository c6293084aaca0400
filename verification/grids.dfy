/** The 8x8 board as a value: row-major strings, `""` for an empty square. */
module Grids {

  type Grid = seq<seq<string>>

  const Size: nat := 8

  predicate InBounds(r: int, c: int)
  {
    0 <= r < Size && 0 <= c < Size
  }

  /** Exactly eight rows of exactly eight squares. */
  ghost predicate WellFormed(g: Grid)
  {
    |g| == Size && forall r :: 0 <= r < Size ==> |g[r]| == Size
  }

  /** Two well-formed grids that agree on every square are the same grid. */
  lemma {:induction false} SameSquares(a: Grid, b: Grid)
    requires WellFormed(a) && WellFormed(b)
    requires forall r, c :: InBounds(r, c) ==> a[r][c] == b[r][c]
    ensures a == b
  {
    forall r | 0 <= r < Size
      ensures a[r] == b[r]
    {
      assert forall c :: 0 <= c < Size ==> a[r][c] == b[r][c];
    }
  }

  /** The board as constructed: every square empty. */
  function EmptyGrid(): (g: Grid)
    ensures WellFormed(g)
    ensures forall r, c :: InBounds(r, c) ==> g[r][c] == ""
  {
    seq(Size, _ => seq(Size, _ => ""))
  }

  /** Overwrite one square.  The written square reads back `p`; every other square is unchanged. */
  function Write(g: Grid, r: int, c: int, p: string): (h: Grid)
    requires WellFormed(g) && InBounds(r, c)
    ensures WellFormed(h)
    ensures h[r][c] == p
    ensures forall i, j :: InBounds(i, j) && (i != r || j != c) ==> h[i][j] == g[i][j]
  {
    g[r := g[r][c := p]]
  }

  // ---------------------------------------------------------------------------
  // Starting layout

  const WhitePawn: string := "white_pawn"
  const BlackPawn: string := "black_pawn"

  const WhiteBackRank: seq<string> :=
    ["white_rook", "white_knight", "white_bishop", "white_queen",
     "white_king", "white_bishop", "white_knight", "white_rook"]

  const BlackBackRank: seq<string> :=
    ["black_rook", "black_knight", "black_bishop", "black_queen",
     "black_king", "black_bishop", "black_knight", "black_rook"]

  /** What `initialize` makes of grid `g`: rows 0, 1, 6 and 7 get the starting pieces,
      rows 2 to 5 keep whatever they held. */
  ghost function Initialized(g: Grid): (h: Grid)
    requires WellFormed(g)
    ensures WellFormed(h)
    ensures forall c :: 0 <= c < Size ==> h[1][c] == WhitePawn && h[6][c] == BlackPawn
    ensures h[0] == WhiteBackRank && h[7] == BlackBackRank
    ensures forall r :: 2 <= r < 6 ==> h[r] == g[r]
  {
    g[0 := WhiteBackRank][1 := seq(Size, _ => WhitePawn)][6 := seq(Size, _ => BlackPawn)][7 := BlackBackRank]
  }

  /** The sixteen back-rank writes of `initialize`, in the order the source makes them.
      They fill rows 0 and 7 with the starting pieces and touch no other row. */
  function PlaceBackRanks(g: Grid): (h: Grid)
    requires WellFormed(g)
    ensures WellFormed(h)
    ensures h[0] == WhiteBackRank && h[7] == BlackBackRank
    ensures forall r :: 0 < r < Size - 1 ==> h[r] == g[r]
  {
    var rooks := Write(Write(Write(Write(g, 0, 0, "white_rook"), 0, 7, "white_rook"), 7, 0, "black_rook"), 7, 7, "black_rook");
    var knights := Write(Write(Write(Write(rooks, 0, 1, "white_knight"), 0, 6, "white_knight"), 7, 1, "black_knight"), 7, 6, "black_knight");
    var bishops := Write(Write(Write(Write(knights, 0, 2, "white_bishop"), 0, 5, "white_bishop"), 7, 2, "black_bishop"), 7, 5, "black_bishop");
    var queens := Write(Write(bishops, 0, 3, "white_queen"), 7, 3, "black_queen");
    Write(Write(queens, 0, 4, "white_king"), 7, 4, "black_king")
  }

  /** The back-rank writes fill rows 0 and 7 with the starting pieces and leave the other
      rows alone, so after the pawn rows are filled they complete `Initialized`. */
  lemma BackRanksFrom(before: Grid, pawnsDone: Grid)
    requires WellFormed(before) && WellFormed(pawnsDone)
    requires forall c :: 0 <= c < Size ==> pawnsDone[1][c] == WhitePawn && pawnsDone[6][c] == BlackPawn
    requires forall r, c :: InBounds(r, c) && 2 <= r < 6 ==> pawnsDone[r][c] == before[r][c]
    ensures PlaceBackRanks(pawnsDone) == Initialized(before)
  {
    var h := PlaceBackRanks(pawnsDone);
    forall r, c | InBounds(r, c)
      ensures h[r][c] == Initialized(before)[r][c]
    {
      if c == 0 {} else if c == 1 {} else if c == 2 {} else if c == 3 {}
      else if c == 4 {} else if c == 5 {} else if c == 6 {} else {}
    }
    SameSquares(h, Initialized(before));
  }

  /** Initializing twice gives the same grid as initializing once. */
  lemma InitializedIdempotent(g: Grid)
    requires WellFormed(g)
    ensures Initialized(Initialized(g)) == Initialized(g)
  {
  }

  /** The result of `initialize` does not depend on rows 0, 1, 6 and 7 of the old grid. */
  lemma InitializedOverwritesHomeRows(g: Grid, g': Grid)
    requires WellFormed(g) && WellFormed(g')
    requires forall r :: 2 <= r < 6 ==> g[r] == g'[r]
    ensures Initialized(g) == Initialized(g')
  {
  }

  /** The starting position: a fresh board after `initialize`. */
  ghost function StartGrid(): (g: Grid)
    ensures WellFormed(g)
  {
    Initialized(EmptyGrid())
  }

  /** The starting position square by square: pawns on rows 1 and 6, the back ranks
      rook-knight-bishop-queen-king-bishop-knight-rook on rows 0 and 7, empty elsewhere. */
  lemma StartLayout(r: int, c: int)
    requires InBounds(r, c)
    ensures r == 1 ==> StartGrid()[r][c] == WhitePawn
    ensures r == 6 ==> StartGrid()[r][c] == BlackPawn
    ensures r == 0 ==> StartGrid()[r][c] == WhiteBackRank[c]
    ensures r == 7 ==> StartGrid()[r][c] == BlackBackRank[c]
    ensures 2 <= r < 6 ==> StartGrid()[r][c] == ""
  {
  }

  // ---------------------------------------------------------------------------
  // Counting occupied squares

  function RowCount(row: seq<string>): (n: nat)
    ensures n <= |row|
  {
    if row == [] then 0 else (if row[0] == "" then 0 else 1) + RowCount(row[1..])
  }

  /** Number of non-empty squares in rows `0..k`. */
  function CountUpTo(g: Grid, k: nat): nat
    requires k <= |g|
  {
    if k == 0 then 0 else CountUpTo(g, k - 1) + RowCount(g[k - 1])
  }

  /** Number of non-empty squares on the board. */
  function Occupied(g: Grid): nat
  {
    CountUpTo(g, |g|)
  }

  function Occupancy(p: string): nat
  {
    if p == "" then 0 else 1
  }

  lemma {:induction false} RowCountUpdate(row: seq<string>, c: int, p: string)
    requires 0 <= c < |row|
    ensures RowCount(row[c := p]) == RowCount(row) - Occupancy(row[c]) + Occupancy(p)
  {
    if c == 0 {
      assert row[c := p][1..] == row[1..];
    } else {
      assert row[c := p][1..] == row[1..][c - 1 := p];
      RowCountUpdate(row[1..], c - 1, p);
    }
  }

  lemma {:induction false} CountUpToUpdate(g: Grid, k: nat, r: int, row: seq<string>)
    requires k <= |g| && 0 <= r < |g|
    ensures r < k ==> CountUpTo(g[r := row], k) == CountUpTo(g, k) - RowCount(g[r]) + RowCount(row)
    ensures k <= r ==> CountUpTo(g[r := row], k) == CountUpTo(g, k)
  {
    if k > 0 {
      CountUpToUpdate(g, k - 1, r, row);
    }
  }

  /** Writing one square changes the number of occupied squares by exactly what was
      removed and what was put there. */
  lemma OccupiedWrite(g: Grid, r: int, c: int, p: string)
    requires WellFormed(g) && InBounds(r, c)
    ensures Occupied(Write(g, r, c, p)) == Occupied(g) - Occupancy(g[r][c]) + Occupancy(p)
  {
    RowCountUpdate(g[r], c, p);
    CountUpToUpdate(g, |g|, r, g[r][c := p]);
  }
}
