/**
 * What the move generator and the attack oracle of src/lib/chess-logic.ts
 * promise, stated about their functional form in `MoveGen`: which squares a
 * ray, a table of steps, a pawn and a castling king reach, that every
 * generated target is a square of the board other than the start, and that
 * the oracle's row-major scan finds an attacker exactly when one exists.
 */
module MoveFacts {
  import opened Wrappers
  import opened ChessBoard
  import opened MoveGen

  /** `checkLine` pushes `to` exactly when `addMove` would. */
  lemma LinePushLands(b: Board, color: Color, to: Pos)
    requires ValidBoard(b)
    ensures LinePush(b, color, to) == When(CanLand(b, color, to), to)
  {
  }

  /** The squares of the ray from index `i` up to (not including) `k` are empty. */
  ghost predicate ClearBetween(b: Board, from: Pos, dr: int, dc: int, i: int, k: int)
    requires ValidBoard(b)
  {
    forall j :: i <= j < k ==> LineOpen(b, RaySquare(from, dr, dc, j))
  }

  /**
   * A ray reaches exactly the squares it can land on whose predecessors on
   * the ray are all empty.
   */
  lemma {:induction false} RayMember(b: Board, from: Pos, dr: int, dc: int, color: Color, i: nat, p: Pos)
    requires ValidBoard(b) && 1 <= i <= 8
    ensures p in Ray(b, from, dr, dc, color, i) <==>
      exists k :: i <= k < 8 && p == RaySquare(from, dr, dc, k) && CanLand(b, color, p) &&
        ClearBetween(b, from, dr, dc, i, k)
    decreases 8 - i
  {
    if i < 8 {
      RayMember(b, from, dr, dc, color, i + 1, p);
      var to := RaySquare(from, dr, dc, i);
      LinePushLands(b, color, to);
      var rest := if LineOpen(b, to) then Ray(b, from, dr, dc, color, i + 1) else [];
      assert Ray(b, from, dr, dc, color, i) == When(CanLand(b, color, to), to) + rest;
      if p in Ray(b, from, dr, dc, color, i) {
        if p == to && CanLand(b, color, to) {
          assert ClearBetween(b, from, dr, dc, i, i);
        } else {
          assert p in rest;
          var k :| i + 1 <= k < 8 && p == RaySquare(from, dr, dc, k) && CanLand(b, color, p) &&
            ClearBetween(b, from, dr, dc, i + 1, k);
          assert ClearBetween(b, from, dr, dc, i, k);
        }
      }
      if exists k :: (i <= k < 8 && p == RaySquare(from, dr, dc, k) && CanLand(b, color, p) &&
        ClearBetween(b, from, dr, dc, i, k))
      {
        var k :| i <= k < 8 && p == RaySquare(from, dr, dc, k) && CanLand(b, color, p) &&
          ClearBetween(b, from, dr, dc, i, k);
        if k > i {
          assert LineOpen(b, RaySquare(from, dr, dc, i));
          assert ClearBetween(b, from, dr, dc, i + 1, k);
          assert p in rest;
        }
      }
    }
  }

  /** A table of steps reaches exactly the shifted squares it can land on. */
  lemma {:induction false} StepsMember(b: Board, from: Pos, color: Color, offsets: seq<(int, int)>, p: Pos)
    requires ValidBoard(b)
    ensures p in Steps(b, from, color, offsets) <==>
      exists k :: 0 <= k < |offsets| && p == Shift(from, offsets[k]) && CanLand(b, color, p)
    decreases |offsets|
  {
    if offsets != [] {
      var n := |offsets| - 1;
      var init := offsets[..n];
      StepsMember(b, from, color, init, p);
      if p in Steps(b, from, color, offsets) && p !in Steps(b, from, color, init) {
        assert p == Shift(from, offsets[n]);
      }
      if exists k :: 0 <= k < |offsets| && p == Shift(from, offsets[k]) && CanLand(b, color, p) {
        var k :| 0 <= k < |offsets| && p == Shift(from, offsets[k]) && CanLand(b, color, p);
        if k < n {
          assert init[k] == offsets[k];
        }
      }
    }
  }

  /**
   * The pawn's targets: one step forward onto an empty square; two steps from
   * its start row over two empty squares; a diagonal step onto an enemy piece;
   * and the en passant target next to a pawn that has just moved two rows.
   */
  lemma PawnMember(b: Board, from: Pos, color: Color, h: seq<Move>, p: Pos)
    requires ValidBoard(b) && OnBoard(from)
    ensures p in PawnMoves(b, from, color, h) <==>
      var dir := Dir(color);
      (p == Pos(from.row + dir, from.col) && CanAdvance(b, p)) ||
      (p == Pos(from.row + 2 * dir, from.col) && from.row == StartRow(color) &&
        CanAdvance(b, Pos(from.row + dir, from.col)) && CanAdvance(b, p)) ||
      (p.row == from.row + dir && Abs(p.col - from.col) == 1 && CanCapture(b, color, p)) ||
      (EnPassantReady(from, h) && p == Pos(from.row + dir, h[|h| - 1].to.col))
  {
  }

  /** With castling skipped a king has only its eight steps. */
  lemma ValidMovesSkipCastling(b: Board, from: Pos, h: seq<Move>)
    requires ValidBoard(b) && OnBoard(from)
    ensures ValidMoves(b, from, h, true) ==
      (if b[from.row][from.col].None? then [] else PieceMoves(b, from, b[from.row][from.col].value, h))
  {
  }

  /**
   * Castling moves the king two columns along its row, and only when the king
   * has never moved and is not attacked; the queenside target needs the
   * queenside conditions and the kingside target the kingside ones.
   */
  lemma CastleMember(b: Board, from: Pos, color: Color, h: seq<Move>, p: Pos)
    requires ValidBoard(b) && OnBoard(from)
    ensures p in CastleMoves(b, from, color, h) <==>
      !KingMoved(h, color) && !Attacked(b, from, Opponent(color)) &&
      ((p == Pos(from.row, from.col - 2) && QueensideOpen(b, from, h, Opponent(color))) ||
       (p == Pos(from.row, from.col + 2) && KingsideOpen(b, from, h, Opponent(color))))
  {
    var opp := Opponent(color);
    var stop := KingMoved(h, color) || Attacked(b, from, opp);
    var q, k := QueensideOpen(b, from, h, opp), KingsideOpen(b, from, h, opp);
    assert CastleMoves(b, from, color, h) ==
      if stop then [] else When(q, Pos(from.row, from.col - 2)) + When(k, Pos(from.row, from.col + 2));
  }

  /** A castling target is always on the board: the rook and the empty squares leave room. */
  lemma CastleOnBoard(b: Board, from: Pos, color: Color, h: seq<Move>, p: Pos)
    requires ValidBoard(b) && OnBoard(from) && IsKind(b[from.row][from.col], King)
    requires p in CastleMoves(b, from, color, h)
    ensures OnBoard(p) && p.row == from.row && Abs(p.col - from.col) == 2
  {
    CastleMember(b, from, color, h, p);
  }

  /**
   * The history the game keeps: every entry's squares are on the board, and a
   * pawn that moved two rows landed on the fourth or fifth rank.
   */
  ghost predicate HistoryOk(h: seq<Move>)
  {
    forall i :: 0 <= i < |h| ==>
      OnBoard(h[i].from) && OnBoard(h[i].to) &&
      (h[i].piece.kind == Pawn && Abs(h[i].from.row - h[i].to.row) == 2 ==> h[i].to.row == 3 || h[i].to.row == 4)
  }

  /** The eight rays all move away from their start. */
  lemma RayTargets(b: Board, from: Pos, dr: int, dc: int, color: Color, p: Pos)
    requires ValidBoard(b) && (dr != 0 || dc != 0) && p in Ray(b, from, dr, dc, color, 1)
    ensures OnBoard(p) && p != from
  {
    RayMember(b, from, dr, dc, color, 1, p);
  }

  /** No entry of the knight's or the king's table stands still. */
  lemma OffsetsMove()
    ensures forall k :: 0 <= k < |KnightOffsets| ==> KnightOffsets[k] != (0, 0)
    ensures forall k :: 0 <= k < |KingOffsets| ==> KingOffsets[k] != (0, 0)
  {
  }

  lemma StepTargets(b: Board, from: Pos, color: Color, offsets: seq<(int, int)>, p: Pos)
    requires ValidBoard(b) && p in Steps(b, from, color, offsets)
    requires forall k :: 0 <= k < |offsets| ==> offsets[k] != (0, 0)
    ensures OnBoard(p) && p != from
  {
    StepsMember(b, from, color, offsets, p);
  }

  /** Each kind of piece reaches what its own branches of `getValidMoves` reach; a queen, what a rook or a bishop would. */
  lemma PieceMovesMember(b: Board, from: Pos, piece: Piece, h: seq<Move>, p: Pos)
    requires ValidBoard(b) && OnBoard(from)
    ensures p in PieceMoves(b, from, piece, h) <==>
      match piece.kind
      case Pawn => p in PawnMoves(b, from, piece.color, h)
      case Rook => p in RookRays(b, from, piece.color)
      case Bishop => p in BishopRays(b, from, piece.color)
      case Queen => p in RookRays(b, from, piece.color) || p in BishopRays(b, from, piece.color)
      case Knight => p in Steps(b, from, piece.color, KnightOffsets)
      case King => p in Steps(b, from, piece.color, KingOffsets)
  {
  }

  lemma RookTargets(b: Board, from: Pos, color: Color, p: Pos)
    requires ValidBoard(b) && p in RookRays(b, from, color)
    ensures OnBoard(p) && p != from
  {
    if p in Ray(b, from, 1, 0, color, 1) {
      RayTargets(b, from, 1, 0, color, p);
    } else if p in Ray(b, from, -1, 0, color, 1) {
      RayTargets(b, from, -1, 0, color, p);
    } else if p in Ray(b, from, 0, 1, color, 1) {
      RayTargets(b, from, 0, 1, color, p);
    } else {
      RayTargets(b, from, 0, -1, color, p);
    }
  }

  lemma BishopTargets(b: Board, from: Pos, color: Color, p: Pos)
    requires ValidBoard(b) && p in BishopRays(b, from, color)
    ensures OnBoard(p) && p != from
  {
    if p in Ray(b, from, 1, 1, color, 1) {
      RayTargets(b, from, 1, 1, color, p);
    } else if p in Ray(b, from, -1, -1, color, 1) {
      RayTargets(b, from, -1, -1, color, p);
    } else if p in Ray(b, from, 1, -1, color, 1) {
      RayTargets(b, from, 1, -1, color, p);
    } else {
      RayTargets(b, from, -1, 1, color, p);
    }
  }

  /**
   * A pawn's targets are on the board when the history is one the game can
   * produce, its sideways targets are one row ahead of it, and its two-row
   * advance lands on the fourth or fifth rank.
   */
  lemma PawnTargets(b: Board, from: Pos, color: Color, h: seq<Move>, p: Pos)
    requires ValidBoard(b) && OnBoard(from) && HistoryOk(h) && p in PawnMoves(b, from, color, h)
    ensures OnBoard(p) && p != from
    ensures p.col != from.col ==> p.row == from.row + Dir(color)
    ensures Abs(p.row - from.row) == 2 ==> p.row == 3 || p.row == 4
  {
    PawnMember(b, from, color, h, p);
    if EnPassantReady(from, h) && p == Pos(from.row + Dir(color), h[|h| - 1].to.col) {
      assert OnBoard(h[|h| - 1].to);
    }
  }

  /**
   * Every target the generator produces is a square of the board other than
   * the start, provided the history is one the game can produce (otherwise
   * the en passant target could fall off the board). A pawn's sideways
   * target is always one row ahead of it, and a pawn that moves two rows
   * lands on the fourth or fifth rank.
   */
  lemma ValidMovesTargets(b: Board, from: Pos, h: seq<Move>, skipCastling: bool, p: Pos)
    requires ValidBoard(b) && OnBoard(from) && HistoryOk(h)
    requires p in ValidMoves(b, from, h, skipCastling)
    ensures OnBoard(p) && p != from
    ensures IsKind(b[from.row][from.col], Pawn) && p.col != from.col ==>
      p.row == from.row + Dir(b[from.row][from.col].value.color)
    ensures IsKind(b[from.row][from.col], Pawn) && Abs(p.row - from.row) == 2 ==> p.row == 3 || p.row == 4
  {
    var piece := b[from.row][from.col].value;
    var color := piece.color;
    PieceMovesMember(b, from, piece, h, p);
    if p !in PieceMoves(b, from, piece, h) {
      CastleOnBoard(b, from, color, h, p);
    } else {
      match piece.kind
      case Pawn => PawnTargets(b, from, color, h, p);
      case Rook => RookTargets(b, from, color, p);
      case Bishop => BishopTargets(b, from, color, p);
      case Queen =>
        if p in RookRays(b, from, color) {
          RookTargets(b, from, color, p);
        } else {
          BishopTargets(b, from, color, p);
        }
      case Knight =>
        OffsetsMove();
        StepTargets(b, from, color, KnightOffsets, p);
      case King =>
        OffsetsMove();
        StepTargets(b, from, color, KingOffsets, p);
    }
  }

  /** Every square a ray reaches is one the piece may land on. */
  lemma RayLands(b: Board, from: Pos, dr: int, dc: int, color: Color, p: Pos)
    requires ValidBoard(b) && p in Ray(b, from, dr, dc, color, 1)
    ensures CanLand(b, color, p)
  {
    RayMember(b, from, dr, dc, color, 1, p);
  }

  /**
   * Every square pushed through `addMove`, `addCaptureMove`, `addPawnMove` or
   * `checkLine` is on the board and free of the mover's pieces. The one push
   * that bypasses those helpers, the en passant target, is the exception.
   */
  lemma PieceMovesLand(b: Board, from: Pos, piece: Piece, h: seq<Move>, p: Pos)
    requires ValidBoard(b) && OnBoard(from) && p in PieceMoves(b, from, piece, h)
    requires !(piece.kind == Pawn && p in EnPassant(from, piece.color, h))
    ensures CanLand(b, piece.color, p)
  {
    var color := piece.color;
    PieceMovesMember(b, from, piece, h, p);
    match piece.kind
    case Pawn =>
      assert p in PawnAdvances(b, from, color) || p in PawnCaptures(b, from, color, h);
    case Rook => RookLands(b, from, color, p);
    case Bishop => BishopLands(b, from, color, p);
    case Queen =>
      if p in RookRays(b, from, color) {
        RookLands(b, from, color, p);
      } else {
        BishopLands(b, from, color, p);
      }
    case Knight => StepsMember(b, from, color, KnightOffsets, p);
    case King => StepsMember(b, from, color, KingOffsets, p);
  }

  lemma RookLands(b: Board, from: Pos, color: Color, p: Pos)
    requires ValidBoard(b) && p in RookRays(b, from, color)
    ensures CanLand(b, color, p)
  {
    if p in Ray(b, from, 1, 0, color, 1) {
      RayLands(b, from, 1, 0, color, p);
    } else if p in Ray(b, from, -1, 0, color, 1) {
      RayLands(b, from, -1, 0, color, p);
    } else if p in Ray(b, from, 0, 1, color, 1) {
      RayLands(b, from, 0, 1, color, p);
    } else {
      RayLands(b, from, 0, -1, color, p);
    }
  }

  lemma BishopLands(b: Board, from: Pos, color: Color, p: Pos)
    requires ValidBoard(b) && p in BishopRays(b, from, color)
    ensures CanLand(b, color, p)
  {
    if p in Ray(b, from, 1, 1, color, 1) {
      RayLands(b, from, 1, 1, color, p);
    } else if p in Ray(b, from, -1, -1, color, 1) {
      RayLands(b, from, -1, -1, color, p);
    } else if p in Ray(b, from, 1, -1, color, 1) {
      RayLands(b, from, 1, -1, color, p);
    } else {
      RayLands(b, from, -1, 1, color, p);
    }
  }

  /**
   * A king castling from the e-file lands on a square the castling test found
   * empty (column 2 queenside, column 6 kingside).
   */
  lemma CastleLands(b: Board, from: Pos, color: Color, h: seq<Move>, p: Pos)
    requires ValidBoard(b) && OnBoard(from) && from.col == 4
    requires p in CastleMoves(b, from, color, h)
    ensures OnBoard(p) && b[p.row][p.col].None?
  {
    CastleMember(b, from, color, h, p);
  }

  /** An empty square has no moves. */
  lemma EmptyHasNoMoves(b: Board, from: Pos, h: seq<Move>, skipCastling: bool)
    requires ValidBoard(b) && OnBoard(from) && b[from.row][from.col].None?
    ensures ValidMoves(b, from, h, skipCastling) == []
  {
  }

  // ----- The oracle -----

  lemma {:induction false} AttackerInRowIff(b: Board, p: Pos, attacker: Color, r: int, c: int)
    requires ValidBoard(b) && 0 <= r < 8 && 0 <= c <= 8
    ensures AttackerInRow(b, p, attacker, r, c) <==>
      exists c' :: c <= c' < 8 && AttacksFrom(b, Pos(r, c'), p, attacker)
    decreases 8 - c
  {
    if c < 8 {
      AttackerInRowIff(b, p, attacker, r, c + 1);
      if exists c' :: c <= c' < 8 && AttacksFrom(b, Pos(r, c'), p, attacker) {
        var c' :| c <= c' < 8 && AttacksFrom(b, Pos(r, c'), p, attacker);
        if c' > c {
          assert AttackerInRow(b, p, attacker, r, c + 1);
        }
      }
    }
  }

  lemma {:induction false} AttackerFromRowIff(b: Board, p: Pos, attacker: Color, r: int)
    requires ValidBoard(b) && 0 <= r <= 8
    ensures AttackerFromRow(b, p, attacker, r) <==>
      exists r', c' :: r <= r' < 8 && 0 <= c' < 8 && AttacksFrom(b, Pos(r', c'), p, attacker)
    decreases 8 - r
  {
    if r < 8 {
      AttackerFromRowIff(b, p, attacker, r + 1);
      AttackerInRowIff(b, p, attacker, r, 0);
      if exists r', c' :: r <= r' < 8 && 0 <= c' < 8 && AttacksFrom(b, Pos(r', c'), p, attacker) {
        var r', c' :| r <= r' < 8 && 0 <= c' < 8 && AttacksFrom(b, Pos(r', c'), p, attacker);
        if r' == r {
          assert AttackerInRow(b, p, attacker, r, 0);
        } else {
          assert AttackerFromRow(b, p, attacker, r + 1);
        }
      }
    }
  }

  /**
   * `isSquareAttacked` answers true exactly when some piece of the attacker's
   * colour has `p` among its moves (generated with an empty history and no
   * castling).
   */
  lemma AttackedIff(b: Board, p: Pos, attacker: Color)
    requires ValidBoard(b)
    ensures Attacked(b, p, attacker) <==>
      exists r, c :: 0 <= r < 8 && 0 <= c < 8 && AttacksFrom(b, Pos(r, c), p, attacker)
  {
    AttackerFromRowIff(b, p, attacker, 0);
  }

  /** A square is never attacked by a colour with no pieces on the board. */
  lemma NoPiecesNoAttack(b: Board, p: Pos, attacker: Color)
    requires ValidBoard(b)
    requires forall r, c :: 0 <= r < 8 && 0 <= c < 8 ==> !HasColor(b[r][c], attacker)
    ensures !Attacked(b, p, attacker)
  {
    AttackedIff(b, p, attacker);
  }
}
