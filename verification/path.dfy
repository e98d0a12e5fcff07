/**
  Path checking for the sliding pieces (app.js `isPathClear`): starting one
  step away from the source, walk toward the target one unit step at a time
  and fail on the first occupied square. Neither the source nor the target
  is ever looked at.
 */
module Path {
  import opened Wrappers
  import opened Chessboard

  /** Unit step from `a` toward `b`: 0 when equal, else +1 or -1. */
  function Sign(d: int): (s: int)
    ensures s == 0 <==> d == 0
    ensures s == 1 <==> d > 0
    ensures s == -1 <==> d < 0
  {
    if d == 0 then 0 else if d > 0 then 1 else -1
  }

  /** Same row, same column or same diagonal. */
  predicate AlignedRC(r: int, c: int, tr: int, tc: int)
  {
    r == tr || c == tc || Abs(tr - r) == Abs(tc - c)
  }

  predicate Aligned(src: Square, dst: Square)
  {
    AlignedRC(Row(src), Col(src), Row(dst), Col(dst))
  }

  /** Chebyshev distance: the number of unit steps a walk from (r, c) to (tr, tc) takes. */
  function Chebyshev(r: int, c: int, tr: int, tc: int): nat
  {
    Max(Abs(tr - r), Abs(tc - c))
  }

  function Dist(src: Square, dst: Square): nat
  {
    Chebyshev(Row(src), Col(src), Row(dst), Col(dst))
  }

  /** `x` moved `t` unit steps in direction `s`, written without multiplication. */
  function Offset(x: int, s: int, t: int): int
  {
    if s == 0 then x else if s > 0 then x + t else x - t
  }

  /**
    The state of the page's loop: at (r, c), with unit steps (rs, cs) that
    reach (tr, tc) after exactly as many steps as the Chebyshev distance.
   */
  predicate WalkState(r: int, c: int, tr: int, tc: int, rs: int, cs: int)
  {
    && OnBoard(r, c) && OnBoard(tr, tc)
    && -1 <= rs <= 1 && -1 <= cs <= 1
    && tr == Offset(r, rs, Chebyshev(r, c, tr, tc))
    && tc == Offset(c, cs, Chebyshev(r, c, tr, tc))
  }

  /** The square `t` unit steps from (r, c) along (rs, cs) is on the board and empty. */
  predicate EmptyAlong(b: Board, r: int, c: int, rs: int, cs: int, t: int)
  {
    OnBoard(Offset(r, rs, t), Offset(c, cs, t)) && b[Sq(Offset(r, rs, t), Offset(c, cs, t))].None?
  }

  /** The squares 1 .. n-1 steps from (r, c) are the squares 0 .. n-2 steps from the next square (r', c'). */
  lemma ShiftAlong(b: Board, r: int, c: int, rs: int, cs: int, n: int, r': int, c': int)
    requires -1 <= rs <= 1 && -1 <= cs <= 1 && r' == r + rs && c' == c + cs
    ensures (forall t :: 0 < t < n ==> EmptyAlong(b, r, c, rs, cs, t)) <==>
      (forall t :: 0 <= t < n - 1 ==> EmptyAlong(b, r', c', rs, cs, t))
  {
    forall t | 0 < t < n
      ensures EmptyAlong(b, r, c, rs, cs, t) == EmptyAlong(b, r', c', rs, cs, t - 1)
    {
      assert Offset(r, rs, t) == Offset(r', rs, t - 1);
      assert Offset(c, cs, t) == Offset(c', cs, t - 1);
    }
    if forall t :: 0 <= t < n - 1 ==> EmptyAlong(b, r', c', rs, cs, t) {
      forall t | 0 < t < n
        ensures EmptyAlong(b, r, c, rs, cs, t)
      {
        assert EmptyAlong(b, r', c', rs, cs, t - 1);
      }
    }
    if forall t :: 0 < t < n ==> EmptyAlong(b, r, c, rs, cs, t) {
      forall t | 0 <= t < n - 1
        ensures EmptyAlong(b, r', c', rs, cs, t)
      {
        assert EmptyAlong(b, r, c, rs, cs, t + 1);
      }
    }
  }

  /**
    The loop of app.js `isPathClear` from the current square onward: it
    succeeds exactly when every square it visits before the target is empty.
   */
  function Walk(b: Board, r: int, c: int, tr: int, tc: int, rs: int, cs: int): (clear: bool)
    requires WalkState(r, c, tr, tc, rs, cs)
    ensures clear <==>
      forall t :: 0 <= t < Chebyshev(r, c, tr, tc) ==> EmptyAlong(b, r, c, rs, cs, t)
    decreases Chebyshev(r, c, tr, tc)
  {
    if r == tr && c == tc then true
    else if b[Sq(r, c)].Some? then
      assert !EmptyAlong(b, r, c, rs, cs, 0);
      false
    else
      var n := Chebyshev(r, c, tr, tc);
      assert Chebyshev(r + rs, c + cs, tr, tc) == n - 1;
      assert EmptyAlong(b, r, c, rs, cs, 0);
      ShiftAlong(b, r, c, rs, cs, n, r + rs, c + cs);
      Walk(b, r + rs, c + cs, tr, tc, rs, cs)
  }

  /** The walk the page starts one step past (sr, sc) checks exactly the strictly intermediate squares. */
  lemma WalkFromSourceCorrect(b: Board, sr: int, sc: int, tr: int, tc: int)
    requires OnBoard(sr, sc) && OnBoard(tr, tc) && AlignedRC(sr, sc, tr, tc)
    ensures var rs, cs := Sign(tr - sr), Sign(tc - sc);
      WalkState(sr + rs, sc + cs, tr, tc, rs, cs)
      && (Walk(b, sr + rs, sc + cs, tr, tc, rs, cs) <==>
          forall t :: 0 < t < Chebyshev(sr, sc, tr, tc) ==> EmptyAlong(b, sr, sc, rs, cs, t))
  {
    var rs, cs := Sign(tr - sr), Sign(tc - sc);
    var n := Chebyshev(sr, sc, tr, tc);
    assert WalkState(sr + rs, sc + cs, tr, tc, rs, cs);
    if n > 0 {
      assert Chebyshev(sr + rs, sc + cs, tr, tc) == n - 1;
    }
    ShiftAlong(b, sr, sc, rs, cs, n, sr + rs, sc + cs);
  }

  /** The square `t` unit steps from `src` toward `dst`. */
  function Between(src: Square, dst: Square, t: int): (k: Square)
    requires Aligned(src, dst) && 0 <= t <= Dist(src, dst)
  {
    var rs := Sign(Row(dst) - Row(src));
    var cs := Sign(Col(dst) - Col(src));
    Sq(Offset(Row(src), rs, t), Offset(Col(src), cs, t))
  }

  /** Reference definition: every square strictly between `src` and `dst` is empty. */
  predicate PathClear(b: Board, src: Square, dst: Square)
    requires Aligned(src, dst)
  {
    forall t :: 0 < t < Dist(src, dst) ==> b[Between(src, dst, t)].None?
  }

  /** The intermediate squares in index form are the walk's squares in row/column form. */
  lemma BetweenAlong(b: Board, src: Square, dst: Square)
    requires Aligned(src, dst)
    ensures var rs, cs := Sign(Row(dst) - Row(src)), Sign(Col(dst) - Col(src));
      forall t :: 0 < t < Dist(src, dst) ==>
        (b[Between(src, dst, t)].None? <==> EmptyAlong(b, Row(src), Col(src), rs, cs, t))
  {
    var rs, cs := Sign(Row(dst) - Row(src)), Sign(Col(dst) - Col(src));
    forall t | 0 < t < Dist(src, dst)
      ensures b[Between(src, dst, t)].None? == EmptyAlong(b, Row(src), Col(src), rs, cs, t)
    {
      assert Between(src, dst, t) == Sq(Offset(Row(src), rs, t), Offset(Col(src), cs, t));
    }
  }

  /**
    app.js `isPathClear`: true exactly when every square strictly between
    `src` and `dst` is empty. The page only calls it on aligned squares; see
    README.
   */
  function IsPathClear(b: Board, src: Square, dst: Square): (clear: bool)
    requires Aligned(src, dst)
    ensures clear <==> PathClear(b, src, dst)
  {
    var rs := Sign(Row(dst) - Row(src));
    var cs := Sign(Col(dst) - Col(src));
    WalkFromSourceCorrect(b, Row(src), Col(src), Row(dst), Col(dst));
    BetweenAlong(b, src, dst);
    Walk(b, Row(src) + rs, Col(src) + cs, Row(dst), Col(dst), rs, cs)
  }

  /** Intermediate squares are never the source or the target. */
  lemma BetweenIsStrict(src: Square, dst: Square, t: int)
    requires Aligned(src, dst) && 0 < t < Dist(src, dst)
    ensures Between(src, dst, t) != src && Between(src, dst, t) != dst
  {
  }

  /** The occupants of the source and target squares never influence the answer. */
  lemma PathIgnoresEndpoints(b: Board, src: Square, dst: Square, x: Cell, y: Cell)
    requires Aligned(src, dst)
    ensures IsPathClear(b[src := x][dst := y], src, dst) == IsPathClear(b, src, dst)
  {
    var b' := b[src := x][dst := y];
    forall t | 0 < t < Dist(src, dst)
      ensures b'[Between(src, dst, t)] == b[Between(src, dst, t)]
    {
      BetweenIsStrict(src, dst, t);
    }
  }

  /** Putting any piece on any intermediate square blocks the path. */
  lemma BlockerBlocks(b: Board, src: Square, dst: Square, t: int, p: Piece)
    requires Aligned(src, dst) && 0 < t < Dist(src, dst)
    ensures !IsPathClear(b[Between(src, dst, t) := Some(p)], src, dst)
  {
  }
}
