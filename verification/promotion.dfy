/**
  Pawn promotion (app.js `checkPawnPromotion`): when a pawn ends a
  non-capturing move on the far row it is replaced by a piece of the same
  colour chosen by the player. The page asks with a prompt; here the answer
  is a parameter, `None` standing for a cancelled prompt.
 */
module Promotion {
  import opened Wrappers
  import opened Chessboard
  import opened Rules

  /** U+212A KELVIN SIGN, the one non-ASCII character whose lower case is an ASCII letter ('k'). */
  const Kelvin: char := '\U{212A}'

  /**
    JavaScript's `toLowerCase` on one character, as far as it can matter when
    the result is compared with an all-ASCII word.
   */
  function LowerChar(ch: char): char
  {
    if 'A' <= ch <= 'Z' then (ch as int + 32) as char
    else if ch == Kelvin then 'k'
    else ch
  }

  function Lower(s: string): string
  {
    seq(|s|, i requires 0 <= i < |s| => LowerChar(s[i]))
  }

  predicate IsLowerWord(w: string)
  {
    forall i :: 0 <= i < |w| ==> 'a' <= w[i] <= 'z'
  }

  function UpperChar(ch: char): char
    requires 'a' <= ch <= 'z'
  {
    (ch as int - 32) as char
  }

  /** `s` spells the lower-case word `w` letter by letter, each letter in either case. */
  predicate SpellsIgnoringCase(s: string, w: string)
    requires IsLowerWord(w)
  {
    |s| == |w| &&
    forall i :: 0 <= i < |s| ==>
      s[i] == w[i] || s[i] == UpperChar(w[i]) || (w[i] == 'k' && s[i] == Kelvin)
  }

  /** Lower-casing `s` yields the word `w` exactly when `s` spells `w` ignoring case. */
  lemma LowerMatches(s: string, w: string)
    requires IsLowerWord(w)
    ensures Lower(s) == w <==> SpellsIgnoringCase(s, w)
  {
  }

  /**
    The kind a pawn is promoted to: the answer matched case-insensitively
    against queen, rook, bishop and knight; anything else, or no answer, gives
    a queen.
   */
  function PromotionKind(choice: Option<string>): (k: PieceKind)
    ensures k in {Queen, Rook, Bishop, Knight}
    ensures choice.None? ==> k == Queen
    ensures k == Rook <==> choice.Some? && SpellsIgnoringCase(choice.value, "rook")
    ensures k == Bishop <==> choice.Some? && SpellsIgnoringCase(choice.value, "bishop")
    ensures k == Knight <==> choice.Some? && SpellsIgnoringCase(choice.value, "knight")
    ensures choice.Some? && SpellsIgnoringCase(choice.value, "queen") ==> k == Queen
  {
    match choice
    case None => Queen
    case Some(s) =>
      LowerMatches(s, "queen");
      LowerMatches(s, "rook");
      LowerMatches(s, "bishop");
      LowerMatches(s, "knight");
      var l := Lower(s);
      if l == "queen" then Queen
      else if l == "rook" then Rook
      else if l == "bishop" then Bishop
      else if l == "knight" then Knight
      else Queen
  }

  /**
    The test `checkPawnPromotion` makes on the pawn's colour and the target
    row: promotion is due exactly on the row from which a pawn of that colour
    cannot advance further.
   */
  function NeedsPromotion(c: Color, row: int): (due: bool)
    ensures due <==> 0 <= row < Width && !(0 <= row + Forward(c) < Width)
  {
    (c == White && row == 0) || (c == Black && row == 7)
  }

  /**
    A pawn standing on its promotion row has no valid move at all; this is
    where a pawn that captured onto that row stays.
   */
  lemma PawnOnLastRowIsStuck(b: Board, p: Piece, src: Square, dst: Square)
    requires p.kind == Pawn && NeedsPromotion(p.color, Row(src))
    ensures !IsValidMove(b, p, src, dst)
  {
  }

  /** The piece that replaces pawn `p`: the chosen kind, the pawn's colour, and no move flag. */
  function Promote(p: Piece, choice: Option<string>): (q: Piece)
    ensures q.color == p.color && q.kind != Pawn && q.kind != King
    ensures q.kind == PromotionKind(choice)
  {
    Piece(PromotionKind(choice), p.color, false)
  }
}
