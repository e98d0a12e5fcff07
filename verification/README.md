# Chess move engine — a Dafny model

This project models the move-legality engine of a small browser chess board
(`app.js`). The page lets two players drag pieces on a 64-square board. It
checks the turn and the movement geometry of each piece kind, removes a
captured piece, marks pawns as moved, promotes pawns that reach the far row,
and hands the move to the other side. It has no castling, no en passant and
no check detection.

The model works on immutable values:

- a `Board` is a sequence of 64 optional pieces; square `i` is on row `i / 8`
  and column `i % 8`, and row 0 is Black's back row;
- a `Piece` carries its kind, its colour and the `hasMoved` flag the page
  keeps on pawns;
- a `State` pairs the board with the side to move;
- `Game.AttemptMove` is the page's drop handler. It returns an `Outcome` and
  the new state. The page's three refusals are kept apart: `NotYourTurn`,
  `CannotGoHere` (occupied target) and `Ignored` (empty target, invalid move).

Modules: `Chessboard` (pieces, coordinates, piece counts), `Path` (the walk of
`isPathClear` and a reference definition of a clear path), `Rules`
(`checkIfValid`), `Promotion` (the promotion test and the mapping from the
player's answer to a piece), `Game` (`dragDrop` and `changePlayer`), `Setup`
(`startPieces`, kept verbatim as the constant `StartPieces`, and the colours
handed out by `createBoard`), and `Scenarios` (concrete games).

Behaviour of the code that the model keeps on purpose:

- `checkIfValid` accepts a zero move for the king, rook, bishop and queen. The
  drop is still refused because the target then holds the mover's own piece
  (`Rules.ZeroDisplacement`, `Game.ZeroMoveRefused`).
- `checkIfValid` itself accepts a rook, bishop, queen, king or knight move onto
  a square held by its own side. Only the drop handler refuses it
  (`Game.OwnPieceNeverCaptured`).
- A capture never promotes. A pawn that captures onto its last row stays a
  pawn and has no valid move from then on (`Game.NoPromotionOnCapture`,
  `Promotion.PawnOnLastRowIsStuck`).
- The double step depends only on the pawn's `hasMoved` flag, not on its row
  (`Rules.DoubleStepKeyedOnFlag`, `Scenarios.DoubleStepAwayFromHome`).
- A promoted piece is a fresh page element. It therefore has no move flag
  (`hasMoved` is false).
- The answer to the promotion prompt is lower-cased before matching. The model
  lower-cases `A`–`Z` and U+212A KELVIN SIGN, which JavaScript turns into
  `k`. No other character lower-cases to a plain ASCII letter, so the match
  against `queen`, `rook`, `bishop` and `knight` is exact.

The three refusals follow the code's branches. The page refuses with one
message whenever the target is occupied and the move cannot take it, and
refuses silently when the target is empty; `Outcome` has one variant for each.
The promotion answer is free text matched without regard to case, so `choice`
is an `Option<string>`.

## Model

| member | source | states |
|---|---|---|
| Chessboard.Opponent | app.js:103-106 | the other side is always different from the given side, and White's other side is Black |
| Chessboard.OpponentInvolution | app.js:70 | taking the opponent twice gives back the same side |
| Chessboard.Sq | app.js:183 | `row * width + col` is a square whose row and column are exactly `row` and `col` |
| Chessboard.SqOfRowCol | app.js:114-117 | every square is recovered from its row and column |
| Chessboard.CountSplitsByColor | app.js:34-35 | every piece belongs to exactly one side, so the pieces on a board are White's plus Black's |
| Path.Sign | app.js:176-177 | the unit step is 0, +1 or -1 exactly when the difference is zero, positive or negative |
| Path.Walk | app.js:182-189 | the loop returns true exactly when every square it visits before reaching the target is empty |
| Path.WalkFromSourceCorrect | app.js:176-189 | starting one step past the source, the loop checks exactly the squares strictly between source and target |
| Path.IsPathClear | app.js:170-190 | on aligned squares, `isPathClear` is true iff every square strictly between source and target is empty |
| Path.BetweenIsStrict | app.js:179-182 | the intermediate squares are never the source or the target |
| Path.PathIgnoresEndpoints | app.js:179-184 | whatever stands on the source or the target never changes the answer |
| Path.BlockerBlocks | app.js:184 | a piece on any intermediate square makes the path not clear |
| Rules.Forward | app.js:124 | White pawns move toward row 0 (direction -1), Black pawns toward row 7 (+1) |
| Rules.PawnMove | app.js:127-141 | a pawn move always changes square, never starts from the pawn's last row, and lands only on an empty square or an opposing piece |
| Rules.IsValidMove | app.js:109-167 | only a knight leaves the lines through its square; pawn, king and knight moves reach at most two steps; a rook, bishop or queen move passes only over empty squares |
| Rules.RookRule | app.js:143-145 | a rook move is valid iff source and target share a row or a column and every square between is empty |
| Rules.BishopRule | app.js:147-149 | a bishop move is valid iff the row and column distances are equal and every square between is empty |
| Rules.QueenRule | app.js:151-153 | a queen move is valid iff the squares are aligned with an empty path, i.e. iff a rook or a bishop could make it |
| Rules.KingRule | app.js:155-157 | a king move is valid iff the target is at Chebyshev distance at most one |
| Rules.KnightRule | app.js:159-162 | a knight move is valid iff the absolute row and column distances are the set {1, 2} |
| Rules.LeapersIgnoreBoard | app.js:155-162 | king and knight validity is the same on every board |
| Rules.SlidersIgnoreEndpoints | app.js:143-153 | rook, bishop and queen validity does not depend on what stands on the source or the target |
| Rules.SliderBlocked | app.js:143-153 | putting a piece on any intermediate square makes a rook, bishop or queen move invalid |
| Rules.ZeroDisplacement | app.js:143-162 | a move to the same square is valid exactly for the king, rook, bishop and queen |
| Rules.RowsApart | app.js:114-120 | a target `8k` squares away is exactly a target `k` rows away in the same column |
| Rules.PawnRule | app.js:127-141 | a pawn move is valid iff it is one square ahead onto an empty square, two squares ahead from an unmoved pawn over an empty square onto an empty square, or one row ahead and one column aside onto an opposing piece |
| Rules.PawnAdvances | app.js:127-141 | a valid pawn move goes one or two rows forward and at most one column aside |
| Rules.PawnDiagonalOnlyCaptures | app.js:129-139 | a valid pawn move changes column iff it takes an opposing piece, and goes straight iff the target is empty |
| Rules.DoubleStepKeyedOnFlag | app.js:131-135 | a two-row advance is valid iff the pawn's flag is unset and both squares ahead are empty, on any row |
| Promotion.LowerMatches | app.js:201 | lower-casing the answer yields a word iff the answer spells that word letter by letter in either case |
| Promotion.PromotionKind | app.js:198-216 | the new kind is queen, rook, bishop or knight; rook, bishop or knight exactly when the answer spells that word ignoring case; a queen for no answer or any other answer |
| Promotion.NeedsPromotion | app.js:197 | promotion is due exactly on the row from which a pawn of that colour cannot advance further |
| Promotion.PawnOnLastRowIsStuck | app.js:127-141 | a pawn standing on its promotion row has no valid move |
| Promotion.Promote | app.js:218-225 | the replacement keeps the pawn's colour and has the chosen kind, never pawn or king |
| Game.ChangePlayer | app.js:103-106 | the board is untouched and the side to move changes |
| Game.ChangePlayerTwice | app.js:104 | two turn switches restore the state |
| Game.MarkMoved | app.js:82 | kind and colour are kept; the flag becomes set for pawns and is unchanged for other pieces |
| Game.Relocate | app.js:80-93 | the moved piece stands on the target, the source is empty, and no other square changes |
| Game.AttemptMove | app.js:63-101 | refused for the wrong side; moves iff right side, valid geometry and no own piece on the target; every refusal leaves board and turn unchanged; a move empties the source, puts the mover's colour on the target, leaves every other square alone and flips the turn once; reports the captured kind; promotes iff a pawn reaches its last row without capturing |
| Game.MoveCounts | app.js:78-99 | a move keeps the mover's piece count and removes exactly one opposing piece on capture and none otherwise |
| Game.OwnPieceNeverCaptured | app.js:78-89 | a drop onto a square held by the mover's side is always refused and changes nothing |
| Game.ZeroMoveRefused | app.js:78-88 | dropping a piece back on its own square is refused with "cannot go here" and changes nothing |
| Game.NoPromotionOnCapture | app.js:78-84 | a pawn that captures, even onto its last row, stays a pawn, now flagged as moved |
| Setup.InitialState | app.js:6-35 | the game opens on the row-by-row starting position with White to move |
| Setup.StartColor | app.js:34-35 | the two top rows get Black's colour class and the two bottom rows White's |
| Setup.InitialBoard | app.js:11-35 | `startPieces` with its colour classes: rows 0 and 7 hold rook, knight, bishop, queen, king, bishop, knight, rook; rows 1 and 6 pawns; rows 2-5 nothing; Black on top; no piece has moved |
| Setup.InitialColors | app.js:34-35 | squares 0-15 hold Black's pieces, squares 48-63 White's, and no other square holds a piece |
| Setup.InitialCounts | app.js:11-35 | the game opens with 32 pieces, 16 per side |
| Scenarios.OpeningAlternates | app.js:63-106 | after e2-e4 White may not move again, and Black may answer e7-e5 |
| Scenarios.RookBlockedAtStart | app.js:143-144 | the a1 rook can neither pass nor take its own pawn in the starting position |
| Scenarios.ReachE4 | app.js:63-106 | e2-e4 from the opening position moves the pawn, flags it, and gives the turn to Black |
| Scenarios.ReachD5 | app.js:63-106 | d7-d5 in reply reaches the position e4xd5 is played from, with White to move |
| Scenarios.PawnCapture | app.js:78-84 | e4xd5 after e2-e4 d7-d5 takes the pawn and empties e4 |
| Scenarios.PawnCaptureCounts | app.js:78-84 | e4xd5 costs Black exactly one piece and White none |
| Scenarios.PromotionChoices | app.js:194-216 | a pawn reaching row 0 becomes a queen with no answer, a knight for "Knight", a queen for "pawn" |
| Scenarios.CaptureOnLastRow | app.js:78-84 | a pawn capturing onto row 0 stays a pawn |
| Scenarios.DoubleStepAwayFromHome | app.js:131-135 | an unmoved pawn in mid-board may advance two rows |

## Left out

- Page construction, square colouring, `innerHTML` and `draggable` handling
  and the event listeners (app.js:1-3, 22-61): rendering and input plumbing.
- The info messages and the timers that clear them (app.js:73-74, 86-87): the
  outcome variants `NotYourTurn` and `CannotGoHere` stand for them.
- The `prompt` call (app.js:198): the answer is the `choice` parameter, with
  `None` for a cancelled prompt.
- The piece HTML constants `rook`, `knight` and so on are defined outside
  app.js and are not part of this model; pieces are the abstract `PieceKind`.
- Re-attaching the drag handler to a promoted piece (app.js:228-229): event
  wiring.
- The `default` branch of `checkIfValid` (app.js:164-165): `PieceKind` is a
  closed set, so there is no unknown piece id.
- Path.IsPathClear: requires aligned squares. On squares that are not aligned,
  the page's loop leaves the line and either returns false or fails on a
  missing square. The page never calls it that way.
- Game.AttemptMove: requires a piece on the source square, because the page
  starts a drag only on a piece.
- Promotion.LowerMatches: models only the case mappings that can change
  whether the answer equals one of the four words, not all of JavaScript's
  Unicode lower-casing.
