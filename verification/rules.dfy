/**
  Per-kind movement geometry (app.js `checkIfValid`). Only the shape of the
  move and, for pawns and sliding pieces, the occupancy of the board count;
  there is no castling, no en passant and no check detection.
 */
module Rules {
  import opened Wrappers
  import opened Chessboard
  import opened Path

  /** Pawns advance toward row 0 when White and toward row 7 when Black. */
  function Forward(c: Color): (dir: int)
    ensures dir == 1 || dir == -1
    ensures (dir == -1) <==> c == White
  {
    if c == White then -1 else 1
  }

  function RowDiff(src: Square, dst: Square): int
  {
    Row(dst) - Row(src)
  }

  function ColDiff(src: Square, dst: Square): int
  {
    Col(dst) - Col(src)
  }

  /**
    The three pawn cases of `checkIfValid`, in the order the page tries them.
    A pawn always moves, never from its last row, and lands only on an empty
    square or on an opposing piece.
   */
  function PawnMove(b: Board, p: Piece, src: Square, dst: Square): (ok: bool)
    ensures ok ==> src != dst
    ensures ok ==> 0 <= Row(src) + Forward(p.color) < Width
    ensures ok && b[dst].Some? ==> Owned(b[dst], Opponent(p.color))
  {
    var dr, dc := RowDiff(src, dst), ColDiff(src, dst);
    var dir := Forward(p.color);
    var front := src + dir * Width;
    || (dc == 0 && dr == dir && b[dst].None?)
    || (dc == 0 && dr == 2 * dir && b[dst].None? && 0 <= front < 64 && b[front].None? && !p.hasMoved)
    || (Abs(dc) == 1 && dr == dir && Owned(b[dst], Opponent(p.color)))
  }

  /**
    app.js `checkIfValid`: may piece `p` standing on `src` be dropped on
    `dst`? Only a knight leaves the lines through its square, pawns, kings
    and knights reach at most two steps, and a rook, bishop or queen passes
    only over empty squares.
   */
  function IsValidMove(b: Board, p: Piece, src: Square, dst: Square): (ok: bool)
    ensures ok ==> Aligned(src, dst) || p.kind == Knight
    ensures ok && (p.kind == Pawn || p.kind == King || p.kind == Knight) ==> Dist(src, dst) <= 2
    ensures ok && (p.kind == Rook || p.kind == Bishop || p.kind == Queen) ==>
      Aligned(src, dst) && PathClear(b, src, dst)
  {
    var dr, dc := RowDiff(src, dst), ColDiff(src, dst);
    match p.kind
    case Pawn => PawnMove(b, p, src, dst)
    case Rook => if dr == 0 || dc == 0 then IsPathClear(b, src, dst) else false
    case Bishop => if Abs(dr) == Abs(dc) then IsPathClear(b, src, dst) else false
    case Queen =>
      if dr == 0 || dc == 0 || Abs(dr) == Abs(dc) then IsPathClear(b, src, dst) else false
    case King => Abs(dr) <= 1 && Abs(dc) <= 1
    case Knight => (Abs(dr) == 2 && Abs(dc) == 1) || (Abs(dr) == 1 && Abs(dc) == 2)
  }

  /** A rook moves along its row or column over empty squares only. */
  lemma RookRule(b: Board, p: Piece, src: Square, dst: Square)
    requires p.kind == Rook
    ensures IsValidMove(b, p, src, dst) <==>
      (Row(src) == Row(dst) || Col(src) == Col(dst)) && PathClear(b, src, dst)
  {
  }

  /** A bishop moves along a diagonal over empty squares only. */
  lemma BishopRule(b: Board, p: Piece, src: Square, dst: Square)
    requires p.kind == Bishop
    ensures IsValidMove(b, p, src, dst) <==>
      Abs(Row(dst) - Row(src)) == Abs(Col(dst) - Col(src)) && PathClear(b, src, dst)
  {
  }

  /** A queen moves like a rook or like a bishop. */
  lemma QueenRule(b: Board, p: Piece, src: Square, dst: Square)
    requires p.kind == Queen
    ensures IsValidMove(b, p, src, dst) <==> Aligned(src, dst) && PathClear(b, src, dst)
    ensures IsValidMove(b, p, src, dst) <==>
      IsValidMove(b, p.(kind := Rook), src, dst) || IsValidMove(b, p.(kind := Bishop), src, dst)
  {
  }

  /** A king moves to any square at Chebyshev distance at most one. */
  lemma KingRule(b: Board, p: Piece, src: Square, dst: Square)
    requires p.kind == King
    ensures IsValidMove(b, p, src, dst) <==> Dist(src, dst) <= 1
  {
  }

  /** A knight's displacement is one row and two columns or two rows and one column. */
  lemma KnightRule(b: Board, p: Piece, src: Square, dst: Square)
    requires p.kind == Knight
    ensures IsValidMove(b, p, src, dst) <==> {Abs(RowDiff(src, dst)), Abs(ColDiff(src, dst))} == {1, 2}
  {
  }

  /** Kings and knights ignore every square of the board. */
  lemma LeapersIgnoreBoard(b: Board, b': Board, p: Piece, src: Square, dst: Square)
    requires p.kind == King || p.kind == Knight
    ensures IsValidMove(b, p, src, dst) == IsValidMove(b', p, src, dst)
  {
  }

  /** Sliding pieces do not look at what stands on the source or the target. */
  lemma SlidersIgnoreEndpoints(b: Board, p: Piece, src: Square, dst: Square, x: Cell, y: Cell)
    requires p.kind == Rook || p.kind == Bishop || p.kind == Queen
    ensures IsValidMove(b[src := x][dst := y], p, src, dst) == IsValidMove(b, p, src, dst)
  {
    if Aligned(src, dst) {
      PathIgnoresEndpoints(b, src, dst, x, y);
    }
  }

  /** A piece placed on any intermediate square turns a sliding move invalid. */
  lemma SliderBlocked(b: Board, p: Piece, src: Square, dst: Square, t: int, q: Piece)
    requires p.kind == Rook || p.kind == Bishop || p.kind == Queen
    requires Aligned(src, dst) && 0 < t < Dist(src, dst)
    ensures !IsValidMove(b[Between(src, dst, t) := Some(q)], p, src, dst)
  {
    BlockerBlocks(b, src, dst, t, q);
  }

  /**
    The zero move is accepted for the king and the three sliding pieces, and
    refused for pawns and knights.
   */
  lemma ZeroDisplacement(b: Board, p: Piece, sq: Square)
    ensures IsValidMove(b, p, sq, sq) <==> p.kind !in {Pawn, Knight}
  {
  }

  /** Moving by `k` whole rows is the same as adding `8 * k` to the index. */
  lemma RowsApart(src: Square, dst: Square, k: int)
    ensures dst == src + k * Width <==> (ColDiff(src, dst) == 0 && RowDiff(src, dst) == k)
  {
  }

  /**
    Pawn legality in index terms: one square ahead onto an empty square; two
    squares ahead from an unmoved pawn when both squares are empty; or one
    row ahead and one column aside onto an opposing piece.
   */
  lemma PawnRule(b: Board, p: Piece, src: Square, dst: Square)
    requires p.kind == Pawn
    ensures IsValidMove(b, p, src, dst) <==>
      || (dst == src + Forward(p.color) * Width && b[dst].None?)
      || (dst == src + 2 * Forward(p.color) * Width && b[dst].None? && !p.hasMoved
          && b[src + Forward(p.color) * Width].None?)
      || (Abs(ColDiff(src, dst)) == 1 && RowDiff(src, dst) == Forward(p.color)
          && Owned(b[dst], Opponent(p.color)))
  {
  }

  /** A pawn never moves sideways or backwards, and never more than two rows. */
  lemma PawnAdvances(b: Board, p: Piece, src: Square, dst: Square)
    requires p.kind == Pawn && IsValidMove(b, p, src, dst)
    ensures RowDiff(src, dst) == Forward(p.color) || RowDiff(src, dst) == 2 * Forward(p.color)
    ensures Abs(ColDiff(src, dst)) <= 1
  {
  }

  /** A pawn changes column iff it captures an opposing piece; it never moves diagonally onto an empty square. */
  lemma PawnDiagonalOnlyCaptures(b: Board, p: Piece, src: Square, dst: Square)
    requires p.kind == Pawn && IsValidMove(b, p, src, dst)
    ensures ColDiff(src, dst) != 0 <==> Owned(b[dst], Opponent(p.color))
    ensures ColDiff(src, dst) == 0 <==> b[dst].None?
  {
  }

  /**
    The double step depends only on the `hasMoved` flag: an unmoved pawn may
    take it from any row, and a moved pawn never may.
   */
  lemma DoubleStepKeyedOnFlag(b: Board, p: Piece, src: Square, dst: Square)
    requires p.kind == Pawn && dst == src + 2 * Forward(p.color) * Width
    ensures IsValidMove(b, p, src, dst) <==>
      !p.hasMoved && b[dst].None? && b[src + Forward(p.color) * Width].None?
  {
  }
}
