/**
  The board of the chess page: 64 cells in row-major order, each holding at
  most one piece. Square `i` sits on row `i / 8` and column `i % 8`; row 0 is
  the top of the page, where Black starts.
 */
module Chessboard {
  import opened Wrappers

  datatype Color = White | Black

  datatype PieceKind = Pawn | Knight | Bishop | Rook | Queen | King

  /** `hasMoved` mirrors the `data-has-moved` flag the page sets on pawns. */
  datatype Piece = Piece(kind: PieceKind, color: Color, hasMoved: bool)

  const Width: int := 8

  type Square = i: int | 0 <= i < 64

  type Cell = Option<Piece>

  type Board = b: seq<Cell> | |b| == 64 witness seq(64, _ => None)

  /** The other side: the page's `opponentGo` and the value `changePlayer` switches to. */
  function Opponent(c: Color): (r: Color)
    ensures r != c
    ensures c == White <==> r == Black
  {
    match c
    case White => Black
    case Black => White
  }

  lemma OpponentInvolution(c: Color)
    ensures Opponent(Opponent(c)) == c
  {
  }

  function Abs(x: int): nat
  {
    if x < 0 then -x else x
  }

  function Max(x: int, y: int): int
  {
    if x < y then y else x
  }

  function Row(i: Square): (r: int)
    ensures 0 <= r < Width
  {
    i / Width
  }

  function Col(i: Square): (c: int)
    ensures 0 <= c < Width
  {
    i % Width
  }

  predicate OnBoard(r: int, c: int)
  {
    0 <= r < Width && 0 <= c < Width
  }

  /** The square on row `r`, column `c`: the index the page computes as `r * width + c`. */
  function Sq(r: int, c: int): (i: Square)
    requires OnBoard(r, c)
    ensures Row(i) == r && Col(i) == c
  {
    r * Width + c
  }

  /** Row and column determine the square: `Sq` is the inverse of (`Row`, `Col`). */
  lemma SqOfRowCol(i: Square)
    ensures Sq(Row(i), Col(i)) == i
  {
  }

  /** Number of cells of `cells` that satisfy `f`. */
  function Tally(cells: seq<Cell>, f: Cell -> bool): (n: nat)
    ensures n <= |cells|
  {
    if |cells| == 0 then 0
    else (if f(cells[0]) then 1 else 0) + Tally(cells[1..], f)
  }

  function Indicator(b: bool): nat
  {
    if b then 1 else 0
  }

  /** Overwriting one cell changes a tally only by what leaves and what enters that cell. */
  lemma {:induction false} TallyUpdate(cells: seq<Cell>, i: int, x: Cell, f: Cell -> bool)
    requires 0 <= i < |cells|
    ensures Tally(cells[i := x], f) + Indicator(f(cells[i])) == Tally(cells, f) + Indicator(f(x))
  {
    if i == 0 {
      assert cells[i := x][1..] == cells[1..];
    } else {
      assert cells[i := x][1..] == cells[1..][i - 1 := x];
      TallyUpdate(cells[1..], i - 1, x, f);
    }
  }

  predicate Occupied(cell: Cell)
  {
    cell.Some?
  }

  predicate Owned(cell: Cell, c: Color)
  {
    cell.Some? && cell.value.color == c
  }

  /** The test "holds a piece of colour `c`" as a function value, for tallies. */
  function OwnedBy(c: Color): Cell -> bool
  {
    cell => Owned(cell, c)
  }

  /** Number of pieces on the board. */
  function Count(b: Board): (n: nat)
    ensures n <= 64
  {
    Tally(b, Occupied)
  }

  /** Number of pieces of colour `c` on the board. */
  function CountOf(b: Board, c: Color): (n: nat)
    ensures n <= Count(b)
  {
    TallyOf(b, c);
    Tally(b, OwnedBy(c))
  }

  lemma {:induction false} TallyOf(cells: seq<Cell>, c: Color)
    ensures Tally(cells, OwnedBy(c)) <= Tally(cells, Occupied)
  {
    if |cells| > 0 {
      TallyOf(cells[1..], c);
    }
  }

  /** Every piece is White or Black, so the two colour counts add up to the piece count. */
  lemma {:induction false} CountSplitsByColor(cells: seq<Cell>)
    ensures Tally(cells, OwnedBy(White)) + Tally(cells, OwnedBy(Black))
         == Tally(cells, Occupied)
  {
    if |cells| > 0 {
      CountSplitsByColor(cells[1..]);
    }
  }

  /** Tallies add up over concatenation. */
  lemma {:induction false} TallyAppend(a: seq<Cell>, b: seq<Cell>, f: Cell -> bool)
    ensures Tally(a + b, f) == Tally(a, f) + Tally(b, f)
  {
    if |a| == 0 {
      assert a + b == b;
    } else {
      assert (a + b)[1..] == a[1..] + b;
      TallyAppend(a[1..], b, f);
    }
  }

  /** A tally counts every cell when all cells qualify and none when no cell does. */
  lemma {:induction false} TallyUniform(cells: seq<Cell>, f: Cell -> bool)
    ensures (forall i :: 0 <= i < |cells| ==> f(cells[i])) ==> Tally(cells, f) == |cells|
    ensures (forall i :: 0 <= i < |cells| ==> !f(cells[i])) ==> Tally(cells, f) == 0
  {
    if |cells| > 0 {
      TallyUniform(cells[1..], f);
      assert forall i :: 1 <= i < |cells| ==> cells[1..][i - 1] == cells[i];
    }
  }
}
