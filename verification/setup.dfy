/**
  The starting position (app.js `startPieces` and the colour classes
  `createBoard` hands out): squares 0-15 hold Black's pieces, squares 48-63
  White's, and White moves first.
 */
module Setup {
  import opened Wrappers
  import opened Chessboard
  import opened Game

  /** The page's `startPieces` array: piece kinds only, one row of the page per line. */
  const StartPieces: seq<Option<PieceKind>> :=
    [Some(Rook), Some(Knight), Some(Bishop), Some(Queen), Some(King), Some(Bishop), Some(Knight), Some(Rook)] +
    [Some(Pawn), Some(Pawn), Some(Pawn), Some(Pawn), Some(Pawn), Some(Pawn), Some(Pawn), Some(Pawn)] +
    [None, None, None, None, None, None, None, None] +
    [None, None, None, None, None, None, None, None] +
    [None, None, None, None, None, None, None, None] +
    [None, None, None, None, None, None, None, None] +
    [Some(Pawn), Some(Pawn), Some(Pawn), Some(Pawn), Some(Pawn), Some(Pawn), Some(Pawn), Some(Pawn)] +
    [Some(Rook), Some(Knight), Some(Bishop), Some(Queen), Some(King), Some(Bishop), Some(Knight), Some(Rook)]

  /**
    The colour class `createBoard` gives the piece on square `i`: the two top
    rows get `black-piece`, the two bottom rows `white-piece`. Rows 2 to 5
    start empty, so the colour handed out there is never used.
   */
  function StartColor(i: Square): (c: Color)
    ensures Row(i) < 2 ==> c == Black
    ensures Row(i) >= 6 ==> c == White
  {
    if i < 16 then Black else White
  }

  /** The order of the back rows, left to right. */
  const BackRow: seq<PieceKind> := [Rook, Knight, Bishop, Queen, King, Bishop, Knight, Rook]

  /** The starting position described row by row, independently of the array. */
  function StartCell(r: int, c: int): Cell
    requires OnBoard(r, c)
  {
    if r == 0 then Some(Piece(BackRow[c], Black, false))
    else if r == 1 then Some(Piece(Pawn, Black, false))
    else if r == 6 then Some(Piece(Pawn, White, false))
    else if r == 7 then Some(Piece(BackRow[c], White, false))
    else None
  }

  /** What `createBoard` puts on square `i`: the kind from `startPieces`, its colour class, no move flag. */
  function Placed(i: Square): Cell
  {
    match StartPieces[i]
    case None => None
    case Some(k) => Some(Piece(k, StartColor(i), false))
  }

  /** The array and its colours agree with the row-by-row description on every square. */
  lemma PlacedByRow()
    ensures forall i: Square :: Placed(i) == StartCell(Row(i), Col(i))
  {
    assert forall i :: 0 <= i < 8 ==> StartPieces[i] == Some(BackRow[i]);
    assert forall i :: 56 <= i < 64 ==> StartPieces[i] == Some(BackRow[i - 56]);
    assert forall i :: 8 <= i < 16 || 48 <= i < 56 ==> StartPieces[i] == Some(Pawn);
    assert forall i :: 16 <= i < 48 ==> StartPieces[i] == None;
    forall i: Square
      ensures Placed(i) == StartCell(Row(i), Col(i))
    {
      SqOfRowCol(i);
    }
  }

  /**
    The board `createBoard` builds. Rows 0 and 7 hold the back rows, rows 1
    and 6 pawns, rows 2 to 5 nothing; the top two rows are Black's and the
    bottom two White's; no piece has moved.
   */
  function InitialBoard(): (b: Board)
    ensures forall i: Square :: b[i] == StartCell(Row(i), Col(i))
  {
    PlacedByRow();
    seq(64, i requires 0 <= i < 64 => Placed(i))
  }

  /** The game as the page opens it: the starting position with White to move. */
  function InitialState(): (s: State)
    ensures s.active == White
    ensures forall i: Square :: s.board[i] == StartCell(Row(i), Col(i))
  {
    State(InitialBoard(), White)
  }

  /** Every starting piece on squares 0-15 is black and on squares 48-63 white. */
  lemma InitialColors(i: Square)
    ensures InitialBoard()[i].Some? <==> i < 16 || i >= 48
    ensures Owned(InitialBoard()[i], Black) <==> i < 16
    ensures Owned(InitialBoard()[i], White) <==> i >= 48
  {
  }

  /** A tally over a slice of cells that all answer `v`. */
  lemma TallySlice(b: Board, f: Cell -> bool, lo: int, hi: int, v: bool)
    requires 0 <= lo <= hi <= 64
    requires forall i :: lo <= i < hi ==> f(b[i]) == v
    ensures Tally(b[lo..hi], f) == if v then hi - lo else 0
  {
    assert forall j :: 0 <= j < hi - lo ==> b[lo..hi][j] == b[lo + j];
    TallyUniform(b[lo..hi], f);
  }

  /** Tallying a test that holds on Black's home rows iff `top`, on White's iff `bottom`, and never in between. */
  lemma InitialTally(f: Cell -> bool, top: bool, bottom: bool)
    requires forall i: Square :: f(InitialBoard()[i]) == (if i < 16 then top else if i >= 48 then bottom else false)
    ensures Tally(InitialBoard(), f) == (if top then 16 else 0) + (if bottom then 16 else 0)
  {
    var b := InitialBoard();
    assert b == b[0..16] + b[16..48] + b[48..64];
    TallyAppend(b[0..16] + b[16..48], b[48..64], f);
    TallyAppend(b[0..16], b[16..48], f);
    TallySlice(b, f, 0, 16, top);
    TallySlice(b, f, 16, 48, false);
    TallySlice(b, f, 48, 64, bottom);
  }

  /** The game opens with 32 pieces, 16 on each side. */
  lemma InitialCounts()
    ensures Count(InitialBoard()) == 32
    ensures CountOf(InitialBoard(), Black) == 16
    ensures CountOf(InitialBoard(), White) == 16
  {
    forall i: Square
      ensures OwnedBy(Black)(InitialBoard()[i]) <==> i < 16
      ensures OwnedBy(White)(InitialBoard()[i]) <==> i >= 48
    {
      InitialColors(i);
    }
    CountSplitsByColor(InitialBoard());
    InitialTally(OwnedBy(Black), true, false);
    InitialTally(OwnedBy(White), false, true);
  }
}
