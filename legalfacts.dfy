/**
 * What `isKingInCheck`, `getLegalMoves`, `isCheckmate` and `isStalemate`
 * promise, stated about their functional form in `Legality`.
 */
module LegalityFacts {
  import opened Wrappers
  import opened ChessBoard
  import opened MoveGen
  import opened MoveFacts
  import opened Legality

  /** `q` comes before `k` in the row-major order of the scans. */
  predicate Before(q: Pos, k: Pos)
  {
    q.row < k.row || (q.row == k.row && q.col < k.col)
  }

  lemma {:induction false} FindKingInRowSpec(b: Board, c: Color, r: int, col: int)
    requires ValidBoard(b) && 0 <= r < 8 && 0 <= col <= 8
    ensures match FindKingInRow(b, c, r, col)
      case Some(k) =>
        k.row == r && col <= k.col < 8 && IsKingOf(b[r][k.col], c) &&
        forall j :: col <= j < k.col ==> !IsKingOf(b[r][j], c)
      case None => forall j :: col <= j < 8 ==> !IsKingOf(b[r][j], c)
    decreases 8 - col
  {
    if col < 8 && !IsKingOf(b[r][col], c) {
      FindKingInRowSpec(b, c, r, col + 1);
    }
  }

  lemma {:induction false} FindKingFromSpec(b: Board, c: Color, r: int)
    requires ValidBoard(b) && 0 <= r <= 8
    ensures match FindKingFrom(b, c, r)
      case Some(k) =>
        r <= k.row < 8 && 0 <= k.col < 8 && IsKingOf(b[k.row][k.col], c) &&
        forall q :: OnBoard(q) && r <= q.row && Before(q, k) ==> !IsKingOf(b[q.row][q.col], c)
      case None => forall q :: OnBoard(q) && r <= q.row ==> !IsKingOf(b[q.row][q.col], c)
    decreases 8 - r
  {
    if r < 8 {
      FindKingInRowSpec(b, c, r, 0);
      FindKingFromSpec(b, c, r + 1);
    }
  }

  /**
   * The scan of `isKingInCheck` finds a king of the colour and the first one
   * in row-major order, and finds nothing exactly when there is no such king.
   */
  lemma FindKingSpec(b: Board, c: Color)
    requires ValidBoard(b)
    ensures match FindKing(b, c)
      case Some(k) =>
        OnBoard(k) && IsKingOf(b[k.row][k.col], c) &&
        forall q :: OnBoard(q) && Before(q, k) ==> !IsKingOf(b[q.row][q.col], c)
      case None => forall q :: OnBoard(q) ==> !IsKingOf(b[q.row][q.col], c)
  {
    FindKingFromSpec(b, c, 0);
  }

  /** A side whose king is not on the board is never in check. */
  lemma NoKingNoCheck(b: Board, c: Color)
    requires ValidBoard(b)
    requires forall q :: OnBoard(q) ==> !IsKingOf(b[q.row][q.col], c)
    ensures !KingInCheck(b, c)
  {
    FindKingSpec(b, c);
  }

  /**
   * With a single king of colour `c` on `k`, that side is in check exactly
   * when some opposing piece has `k` among its moves.
   */
  lemma KingInCheckIff(b: Board, c: Color, k: Pos)
    requires ValidBoard(b) && OnBoard(k) && IsKingOf(b[k.row][k.col], c)
    requires forall q :: OnBoard(q) && IsKingOf(b[q.row][q.col], c) ==> q == k
    ensures KingInCheck(b, c) <==>
      exists r, col :: 0 <= r < 8 && 0 <= col < 8 && AttacksFrom(b, Pos(r, col), k, Opponent(c))
  {
    FindKingSpec(b, c);
    AttackedIff(b, k, Opponent(c));
  }

  /** The filter keeps exactly the moves after which the mover's king is not in check. */
  lemma {:induction false} SafeMovesMember(b: Board, from: Pos, moves: seq<Pos>, p: Pos)
    requires ValidBoard(b) && OnBoard(from) && b[from.row][from.col].Some?
    ensures p in SafeMoves(b, from, moves) <==>
      p in moves && !KingInCheck(Simulate(b, from, p), b[from.row][from.col].value.color)
    decreases |moves|
  {
    if moves != [] {
      var init := moves[..|moves| - 1];
      SafeMovesMember(b, from, init, p);
      assert moves == init + [moves[|moves| - 1]];
    }
  }

  /** The filter distributes over concatenation, so it keeps the generator's order. */
  lemma {:induction false} SafeMovesAppend(b: Board, from: Pos, xs: seq<Pos>, ys: seq<Pos>)
    requires ValidBoard(b) && OnBoard(from) && b[from.row][from.col].Some?
    ensures SafeMoves(b, from, xs + ys) == SafeMoves(b, from, xs) + SafeMoves(b, from, ys)
    decreases |ys|
  {
    if ys == [] {
      assert xs + ys == xs;
    } else {
      var n := |ys| - 1;
      var last := ys[n];
      assert (xs + ys)[..|xs + ys| - 1] == xs + ys[..n];
      SafeMovesAppend(b, from, xs, ys[..n]);
      var keep := if KingInCheck(Simulate(b, from, last), b[from.row][from.col].value.color) then [] else [last];
      calc {
        SafeMoves(b, from, xs + ys);
        SafeMoves(b, from, xs + ys[..n]) + keep;
        (SafeMoves(b, from, xs) + SafeMoves(b, from, ys[..n])) + keep;
        SafeMoves(b, from, xs) + (SafeMoves(b, from, ys[..n]) + keep);
        SafeMoves(b, from, xs) + SafeMoves(b, from, ys);
      }
    }
  }

  /** The entries of `ys` whose flag in `mask` is set, in their order in `ys`. */
  function Keep(ys: seq<Pos>, mask: seq<bool>): seq<Pos>
    requires |mask| == |ys|
    decreases |ys|
  {
    if ys == [] then []
    else Keep(ys[..|ys| - 1], mask[..|ys| - 1]) + (if mask[|ys| - 1] then [ys[|ys| - 1]] else [])
  }

  /** Whether each of `moves`, made on the copy of the board, leaves the mover's king out of check. */
  function SafeMask(b: Board, from: Pos, moves: seq<Pos>): (mask: seq<bool>)
    requires ValidBoard(b) && OnBoard(from) && b[from.row][from.col].Some?
    ensures |mask| == |moves|
  {
    seq(|moves|, i requires 0 <= i < |moves| =>
      !KingInCheck(Simulate(b, from, moves[i]), b[from.row][from.col].value.color))
  }

  /**
   * The filter is a subsequence of its input: it keeps, in their order, exactly
   * the moves whose simulation leaves the mover's king out of check.
   */
  lemma {:induction false} SafeMovesKeep(b: Board, from: Pos, moves: seq<Pos>)
    requires ValidBoard(b) && OnBoard(from) && b[from.row][from.col].Some?
    ensures SafeMoves(b, from, moves) == Keep(moves, SafeMask(b, from, moves))
    decreases |moves|
  {
    if moves != [] {
      var n := |moves| - 1;
      SafeMovesKeep(b, from, moves[..n]);
      assert SafeMask(b, from, moves)[..n] == SafeMask(b, from, moves[..n]);
    }
  }

  /**
   * `getLegalMoves` is `getValidMoves` with some entries dropped: the moves
   * it returns are the generated ones, in the generated order, that pass the
   * check test on the simulated copy.
   */
  lemma LegalMovesSubsequence(b: Board, from: Pos, h: seq<Move>)
    requires ValidBoard(b) && OnBoard(from) && b[from.row][from.col].Some?
    ensures var moves := ValidMoves(b, from, h, false);
      LegalMoves(b, from, h) == Keep(moves, SafeMask(b, from, moves))
  {
    SafeMovesKeep(b, from, ValidMoves(b, from, h, false));
  }

  /** The filter never adds a move. */
  lemma {:induction false} SafeMovesShorter(b: Board, from: Pos, moves: seq<Pos>)
    requires ValidBoard(b) && OnBoard(from) && b[from.row][from.col].Some?
    ensures |SafeMoves(b, from, moves)| <= |moves|
    decreases |moves|
  {
    if moves != [] {
      SafeMovesShorter(b, from, moves[..|moves| - 1]);
    }
  }

  /**
   * `getLegalMoves` returns exactly the generated moves (castling included)
   * after which, on the simulated copy, the mover's king is not in check.
   */
  lemma LegalMovesMember(b: Board, from: Pos, h: seq<Move>, p: Pos)
    requires ValidBoard(b) && OnBoard(from)
    ensures p in LegalMoves(b, from, h) <==>
      b[from.row][from.col].Some? && p in ValidMoves(b, from, h, false) &&
      !KingInCheck(Simulate(b, from, p), b[from.row][from.col].value.color)
  {
    if b[from.row][from.col].Some? {
      SafeMovesMember(b, from, ValidMoves(b, from, h, false), p);
    }
  }

  /** Every legal move is on the board and leaves the start square, for a history the game can produce. */
  lemma LegalMovesTargets(b: Board, from: Pos, h: seq<Move>, p: Pos)
    requires ValidBoard(b) && OnBoard(from) && HistoryOk(h) && p in LegalMoves(b, from, h)
    ensures OnBoard(p) && p != from
    ensures IsKind(b[from.row][from.col], Pawn) && p.col != from.col ==>
      p.row == from.row + Dir(b[from.row][from.col].value.color)
    ensures IsKind(b[from.row][from.col], Pawn) && Abs(p.row - from.row) == 2 ==> p.row == 3 || p.row == 4
  {
    LegalMovesMember(b, from, h, p);
    ValidMovesTargets(b, from, h, false, p);
  }

  lemma {:induction false} MovableInRowIff(b: Board, c: Color, h: seq<Move>, r: int, col: int)
    requires ValidBoard(b) && 0 <= r < 8 && 0 <= col <= 8
    ensures MovableInRow(b, c, h, r, col) <==> exists j :: col <= j < 8 && CanMove(b, Pos(r, j), c, h)
    decreases 8 - col
  {
    if col < 8 {
      MovableInRowIff(b, c, h, r, col + 1);
      if exists j :: col <= j < 8 && CanMove(b, Pos(r, j), c, h) {
        var j :| col <= j < 8 && CanMove(b, Pos(r, j), c, h);
        if j > col {
          assert MovableInRow(b, c, h, r, col + 1);
        }
      }
    }
  }

  lemma {:induction false} MovableFromRowIff(b: Board, c: Color, h: seq<Move>, r: int)
    requires ValidBoard(b) && 0 <= r <= 8
    ensures MovableFromRow(b, c, h, r) <==>
      exists i, j :: r <= i < 8 && 0 <= j < 8 && CanMove(b, Pos(i, j), c, h)
    decreases 8 - r
  {
    if r < 8 {
      MovableInRowIff(b, c, h, r, 0);
      MovableFromRowIff(b, c, h, r + 1);
      if exists i, j :: r <= i < 8 && 0 <= j < 8 && CanMove(b, Pos(i, j), c, h) {
        var i, j :| r <= i < 8 && 0 <= j < 8 && CanMove(b, Pos(i, j), c, h);
        if i == r {
          assert MovableInRow(b, c, h, r, 0);
        } else {
          assert MovableFromRow(b, c, h, r + 1);
        }
      }
    }
  }

  /** The scan of `isCheckmate` and `isStalemate` succeeds exactly when no piece of the colour has a legal move. */
  lemma NoLegalMovesIff(b: Board, c: Color, h: seq<Move>)
    requires ValidBoard(b)
    ensures NoLegalMoves(b, c, h) <==>
      forall i, j :: 0 <= i < 8 && 0 <= j < 8 && HasColor(b[i][j], c) ==> LegalMoves(b, Pos(i, j), h) == []
  {
    MovableFromRowIff(b, c, h, 0);
    if !NoLegalMoves(b, c, h) {
      var i, j :| 0 <= i < 8 && 0 <= j < 8 && CanMove(b, Pos(i, j), c, h);
      assert LegalMoves(b, Pos(i, j), h) != [];
    } else {
      forall i, j | 0 <= i < 8 && 0 <= j < 8 && HasColor(b[i][j], c)
        ensures LegalMoves(b, Pos(i, j), h) == []
      {
        assert !CanMove(b, Pos(i, j), c, h);
      }
    }
  }

  /** A side is checkmated, stalemated, or has a legal move; never two of these at once. */
  lemma EndingsExclusive(b: Board, c: Color, h: seq<Move>)
    requires ValidBoard(b)
    ensures !(Checkmated(b, c, h) && Stalemated(b, c, h))
    ensures Checkmated(b, c, h) || Stalemated(b, c, h) <==> NoLegalMoves(b, c, h)
  {
  }
}
