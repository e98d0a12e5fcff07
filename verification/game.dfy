/**
  The decision logic of the page's drop handler (app.js `dragDrop`) and the
  turn switch (`changePlayer`), with the board and the side to move passed in
  and returned instead of living in the page.
 */
module Game {
  import opened Wrappers
  import opened Chessboard
  import opened Path
  import opened Rules
  import opened Promotion

  datatype State = State(board: Board, active: Color)

  /**
    What a drop did. The page distinguishes three refusals: the "It's not
    your turn!" message, the "You cannot go here" message on an occupied
    target, and a silent refusal when the target is empty and the move invalid.
   */
  datatype Outcome =
    | Moved(captured: Option<PieceKind>, promoted: Option<PieceKind>)
    | NotYourTurn
    | CannotGoHere
    | Ignored

  datatype MoveResult = MoveResult(outcome: Outcome, state: State)

  /** app.js `changePlayer`: hand the move to the other side. */
  function ChangePlayer(s: State): (r: State)
    ensures r.board == s.board
    ensures r.active != s.active
  {
    s.(active := Opponent(s.active))
  }

  /** Two turn switches give the move back to the same side. */
  lemma ChangePlayerTwice(s: State)
    ensures ChangePlayer(ChangePlayer(s)) == s
  {
  }

  /** The page sets the `hasMoved` flag on pawns only. */
  function MarkMoved(p: Piece): (q: Piece)
    ensures q.kind == p.kind && q.color == p.color
    ensures q.hasMoved == (p.hasMoved || p.kind == Pawn)
  {
    if p.kind == Pawn then p.(hasMoved := true) else p
  }

  /** The board after piece `p` leaves `src` and lands on `dst`, removing whatever stood there. */
  function Relocate(b: Board, src: Square, dst: Square, p: Piece): (b': Board)
    ensures b'[dst] == Some(p)
    ensures src != dst ==> b'[src].None?
    ensures forall i: Square :: i != src && i != dst ==> b'[i] == b[i]
  {
    b[src := None][dst := Some(p)]
  }

  /**
    app.js `dragDrop`: the player whose turn it is drops the piece standing on
    `src` onto `dst`; `choice` is the answer the player would give to the
    promotion prompt. The page only starts a drag on a piece, hence the
    precondition.
   */
  function AttemptMove(s: State, src: Square, dst: Square, choice: Option<string>): (r: MoveResult)
    requires s.board[src].Some?
    // Turn check first: the wrong side is refused whatever the move.
    ensures r.outcome == NotYourTurn <==> s.board[src].value.color != s.active
    // A move happens iff it is the mover's turn, the geometry is valid and the target holds no own piece.
    ensures r.outcome.Moved? <==>
      && s.board[src].value.color == s.active
      && IsValidMove(s.board, s.board[src].value, src, dst)
      && !Owned(s.board[dst], s.active)
    // Every refusal leaves board and turn unchanged.
    ensures !r.outcome.Moved? ==> r.state == s
    ensures r.outcome == CannotGoHere ==> s.board[dst].Some?
    ensures r.outcome == Ignored ==> s.board[dst].None?
    // A move empties the source, fills the target with the mover's colour,
    // touches no other square and flips the turn once.
    ensures r.outcome.Moved? ==>
      && src != dst
      && r.state.active == Opponent(s.active)
      && r.state.board[src].None?
      && Owned(r.state.board[dst], s.active)
      && (forall k: Square :: k != src && k != dst ==> r.state.board[k] == s.board[k])
    // The captured piece is the one that stood on the target.
    ensures r.outcome.Moved? ==>
      r.outcome.captured == (if s.board[dst].Some? then Some(s.board[dst].value.kind) else None)
    // Promotion: only a pawn, only without capture, only on its last row.
    ensures r.outcome.Moved? ==>
      (r.outcome.promoted.Some? <==>
        s.board[src].value.kind == Pawn && s.board[dst].None?
        && NeedsPromotion(s.active, Row(dst)))
    ensures r.outcome.Moved? && r.outcome.promoted.Some? ==>
      && r.outcome.promoted.value == PromotionKind(choice)
      && r.state.board[dst] == Some(Piece(PromotionKind(choice), s.active, false))
    // Without promotion the same piece arrives, a pawn now flagged as moved.
    ensures r.outcome.Moved? && r.outcome.promoted.None? ==>
      var p := s.board[src].value;
      && r.state.board[dst].value.kind == p.kind
      && r.state.board[dst].value.hasMoved == (p.hasMoved || p.kind == Pawn)
  {
    var b := s.board;
    var piece := b[src].value;
    var valid := IsValidMove(b, piece, src, dst);
    if piece.color != s.active then
      MoveResult(NotYourTurn, s)
    else
      match b[dst]
      case Some(target) =>
        if target.color == Opponent(s.active) && valid then
          var next := State(Relocate(b, src, dst, MarkMoved(piece)), s.active);
          MoveResult(Moved(Some(target.kind), None), ChangePlayer(next))
        else
          MoveResult(CannotGoHere, s)
      case None =>
        if valid then
          if piece.kind == Pawn && NeedsPromotion(piece.color, Row(dst)) then
            var next := State(Relocate(b, src, dst, Promote(piece, choice)), s.active);
            MoveResult(Moved(None, Some(PromotionKind(choice))), ChangePlayer(next))
          else
            var next := State(Relocate(b, src, dst, MarkMoved(piece)), s.active);
            MoveResult(Moved(None, None), ChangePlayer(next))
        else
          MoveResult(Ignored, s)
  }

  /**
    A move keeps the mover's piece count, and removes exactly one opposing
    piece on capture and none otherwise.
   */
  lemma MoveCounts(s: State, src: Square, dst: Square, choice: Option<string>)
    requires s.board[src].Some?
    requires AttemptMove(s, src, dst, choice).outcome.Moved?
    ensures var r := AttemptMove(s, src, dst, choice);
      var taken := if r.outcome.captured.Some? then 1 else 0;
      && Count(r.state.board) == Count(s.board) - taken
      && CountOf(r.state.board, s.active) == CountOf(s.board, s.active)
      && CountOf(r.state.board, Opponent(s.active)) == CountOf(s.board, Opponent(s.active)) - taken
  {
    var r := AttemptMove(s, src, dst, choice);
    var b, b' := s.board, r.state.board;
    var mid := b[src := None];
    assert b' == mid[dst := b'[dst]];
    assert mid[dst] == b[dst];
    var me, them := s.active, Opponent(s.active);
    var mine, theirs := OwnedBy(me), OwnedBy(them);
    TallyUpdate(b, src, None, mine);
    TallyUpdate(mid, dst, b'[dst], mine);
    TallyUpdate(b, src, None, theirs);
    TallyUpdate(mid, dst, b'[dst], theirs);
    CountSplitsByColor(b);
    CountSplitsByColor(b');
  }

  /** Moving onto a square held by one's own piece is always refused, whatever the geometry. */
  lemma OwnPieceNeverCaptured(s: State, src: Square, dst: Square, choice: Option<string>)
    requires s.board[src].Some? && Owned(s.board[dst], s.board[src].value.color)
    ensures !AttemptMove(s, src, dst, choice).outcome.Moved?
    ensures AttemptMove(s, src, dst, choice).state == s
  {
  }

  /** Dropping a piece back on its own square never moves it, although the geometry may accept it. */
  lemma ZeroMoveRefused(s: State, sq: Square, choice: Option<string>)
    requires s.board[sq].Some? && s.board[sq].value.color == s.active
    ensures AttemptMove(s, sq, sq, choice).outcome == CannotGoHere
    ensures AttemptMove(s, sq, sq, choice).state == s
  {
  }

  /** A capturing move onto the last row leaves the pawn a pawn. */
  lemma NoPromotionOnCapture(s: State, src: Square, dst: Square, choice: Option<string>)
    requires s.board[src].Some? && s.board[src].value.kind == Pawn
    requires AttemptMove(s, src, dst, choice).outcome.Moved? && s.board[dst].Some?
    ensures AttemptMove(s, src, dst, choice).state.board[dst] == Some(s.board[src].value.(hasMoved := true))
  {
  }
}
