/**
  Concrete games played through `AttemptMove`, squares numbered as on the
  page (0 is Black's queen-side rook, 63 White's king-side rook).
 */
module Scenarios {
  import opened Wrappers
  import opened Chessboard
  import opened Path
  import opened Rules
  import opened Promotion
  import opened Game
  import opened Setup

  const WhitePawn: Piece := Piece(Pawn, White, false)
  const BlackPawn: Piece := Piece(Pawn, Black, false)

  /** 1. e2-e4, then White moving again is refused; Black answers e7-e5. */
  lemma OpeningAlternates()
    ensures var r1 := AttemptMove(InitialState(), 52, 36, None);
      && r1.outcome == Moved(None, None)
      && r1.state.active == Black
      && r1.state.board[36] == Some(Piece(Pawn, White, true))
      && AttemptMove(r1.state, 51, 35, None).outcome == NotYourTurn
      && AttemptMove(r1.state, 12, 28, None).outcome == Moved(None, None)
  {
  }

  /** 2. The rook on a1 cannot jump over its own pawn, nor land on it. */
  lemma RookBlockedAtStart()
    ensures AttemptMove(InitialState(), 56, 40, None).outcome == Ignored
    ensures AttemptMove(InitialState(), 56, 48, None).outcome == CannotGoHere
  {
  }

  /** The position after e2-e4. */
  function AfterE4(): Board
  {
    InitialBoard()[52 := None][36 := Some(WhitePawn.(hasMoved := true))]
  }

  /** The position after e2-e4 d7-d5. */
  function AfterE4D5(): Board
  {
    AfterE4()[11 := None][27 := Some(BlackPawn.(hasMoved := true))]
  }

  /** e2-e4 from the opening position yields `AfterE4` with Black to move. */
  lemma ReachE4()
    ensures AttemptMove(InitialState(), 52, 36, None) == MoveResult(Moved(None, None), State(AfterE4(), Black))
  {
  }

  /** d7-d5 in reply yields `AfterE4D5` with White to move, the position `PawnCapture` starts from. */
  lemma ReachD5()
    ensures AttemptMove(State(AfterE4(), Black), 11, 27, None) == MoveResult(Moved(None, None), State(AfterE4D5(), White))
  {
  }

  /** 3. e2-e4 d7-d5 e4xd5: the white pawn takes the black pawn, which leaves the board. */
  lemma PawnCapture()
    ensures var r := AttemptMove(State(AfterE4D5(), White), 36, 27, None);
      && r.outcome == Moved(Some(Pawn), None)
      && r.state.board[27] == Some(Piece(Pawn, White, true))
      && r.state.board[36].None?
  {
  }

  /** e4xd5 removes one black piece and no white one. */
  lemma PawnCaptureCounts()
    ensures var r := AttemptMove(State(AfterE4D5(), White), 36, 27, None);
      && CountOf(r.state.board, Black) == CountOf(AfterE4D5(), Black) - 1
      && CountOf(r.state.board, White) == CountOf(AfterE4D5(), White)
  {
    var s2 := State(AfterE4D5(), White);
    PawnCapture();
    MoveCounts(s2, 36, 27, None);
  }

  const Empty: Board := seq(64, _ => None)

  /** A white pawn one step from promotion on b7, a black rook on a8. */
  const NearPromotion: Board := Empty[9 := Some(Piece(Pawn, White, true))][0 := Some(Piece(Rook, Black, false))]

  /** 4. Reaching the last row without capture promotes: a queen by default, else the named piece. */
  lemma PromotionChoices()
    ensures AttemptMove(State(NearPromotion, White), 9, 1, None).state.board[1] == Some(Piece(Queen, White, false))
    ensures AttemptMove(State(NearPromotion, White), 9, 1, Some("Knight")).state.board[1] == Some(Piece(Knight, White, false))
    ensures AttemptMove(State(NearPromotion, White), 9, 1, Some("pawn")).outcome == Moved(None, Some(Queen))
  {
    assert IsValidMove(NearPromotion, Piece(Pawn, White, true), 9, 1);
    assert SpellsIgnoringCase("Knight", "knight");
    assert "pawn"[0] == 'p';
  }

  /** 5. Capturing onto the last row does not promote. */
  lemma CaptureOnLastRow()
    ensures AttemptMove(State(NearPromotion, White), 9, 0, Some("rook")) ==
      MoveResult(Moved(Some(Rook), None), State(Empty[0 := Some(Piece(Pawn, White, true))], Black))
  {
  }

  /** 6. An unmoved pawn may double-step from the middle of the board. */
  lemma DoubleStepAwayFromHome()
    ensures AttemptMove(State(Empty[36 := Some(Piece(Pawn, White, false))], White), 36, 20, None).outcome
      == Moved(None, None)
  {
  }
}
