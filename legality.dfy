/**
 * Check, legal moves, checkmate and stalemate of src/lib/chess-logic.ts:
 * `isKingInCheck`, `getLegalMoves`, `isCheckmate` and `isStalemate`.
 *
 * A move is legal when the position reached by making it on a copy of the
 * board does not leave the mover's king attacked. The copy only moves the
 * piece (and the rook, for a castling king): a pawn taken en passant stays
 * on the copy.
 */
module Legality {
  import opened Wrappers
  import opened ChessBoard
  import opened MoveGen

  predicate IsKingOf(sq: Square, c: Color)
  {
    sq.Some? && sq.value.kind == King && sq.value.color == c
  }

  /** The first king of colour `c` in row `r` from column `col` on. */
  function FindKingInRow(b: Board, c: Color, r: int, col: int): Option<Pos>
    requires ValidBoard(b) && 0 <= r < 8 && 0 <= col <= 8
    decreases 8 - col
  {
    if col == 8 then None
    else if IsKingOf(b[r][col], c) then Some(Pos(r, col))
    else FindKingInRow(b, c, r, col + 1)
  }

  /** The first king of colour `c` in row-major order from row `r` on. */
  function FindKingFrom(b: Board, c: Color, r: int): Option<Pos>
    requires ValidBoard(b) && 0 <= r <= 8
    decreases 8 - r
  {
    if r == 8 then None
    else match FindKingInRow(b, c, r, 0)
      case Some(k) => Some(k)
      case None => FindKingFrom(b, c, r + 1)
  }

  /** Where the scan of `isKingInCheck` finds the king of colour `c`. */
  function FindKing(b: Board, c: Color): Option<Pos>
    requires ValidBoard(b)
  {
    FindKingFrom(b, c, 0)
  }

  /** `isKingInCheck`: the king is found and the opponent attacks its square; no king, no check. */
  predicate KingInCheck(b: Board, c: Color)
    requires ValidBoard(b)
  {
    match FindKing(b, c)
    case None => false
    case Some(k) => Attacked(b, k, Opponent(c))
  }

  /** The rook's jump of a castling king, when the king moves two columns. */
  function ShiftRook(b: Board, from: Pos, to: Pos, kind: Kind): (r: Board)
    requires ValidBoard(b) && OnBoard(from)
    ensures ValidBoard(r)
  {
    if kind == King && Abs(to.col - from.col) == 2 then
      var rookCol := if to.col > from.col then 7 else 0;
      var newRookCol := if to.col > from.col then 5 else 3;
      var b1 := Put(b, Pos(from.row, newRookCol), b[from.row][rookCol]);
      Put(b1, Pos(from.row, rookCol), None)
    else b
  }

  /** The copy of the board that `getLegalMoves` tests the move `from` to `to` on. */
  function Simulate(b: Board, from: Pos, to: Pos): (r: Board)
    requires ValidBoard(b) && OnBoard(from) && b[from.row][from.col].Some?
    ensures ValidBoard(r)
  {
    var b1 := Put(b, to, b[from.row][from.col]);
    var b2 := Put(b1, from, None);
    ShiftRook(b2, from, to, b[from.row][from.col].value.kind)
  }

  /** The `filter` of `getLegalMoves`: the moves that leave the mover's king out of check. */
  function SafeMoves(b: Board, from: Pos, moves: seq<Pos>): seq<Pos>
    requires ValidBoard(b) && OnBoard(from) && b[from.row][from.col].Some?
    decreases |moves|
  {
    if moves == [] then []
    else
      var to := moves[|moves| - 1];
      SafeMoves(b, from, moves[..|moves| - 1])
      + (if KingInCheck(Simulate(b, from, to), b[from.row][from.col].value.color) then [] else [to])
  }

  /** `getLegalMoves(board, from, moveHistory)`. */
  function LegalMoves(b: Board, from: Pos, h: seq<Move>): seq<Pos>
    requires ValidBoard(b) && OnBoard(from)
  {
    if b[from.row][from.col].None? then []
    else SafeMoves(b, from, ValidMoves(b, from, h, false))
  }

  /** The square `q` holds a piece of colour `c` that has a legal move. */
  predicate CanMove(b: Board, q: Pos, c: Color, h: seq<Move>)
    requires ValidBoard(b) && OnBoard(q)
  {
    HasColor(b[q.row][q.col], c) && |LegalMoves(b, q, h)| > 0
  }

  /** Some square of row `r` from column `col` on holds a piece of colour `c` that can move. */
  predicate MovableInRow(b: Board, c: Color, h: seq<Move>, r: int, col: int)
    requires ValidBoard(b) && 0 <= r < 8 && 0 <= col <= 8
    decreases 8 - col
  {
    col < 8 && (CanMove(b, Pos(r, col), c, h) || MovableInRow(b, c, h, r, col + 1))
  }

  /** Some square of the rows from `r` on holds a piece of colour `c` that can move. */
  predicate MovableFromRow(b: Board, c: Color, h: seq<Move>, r: int)
    requires ValidBoard(b) && 0 <= r <= 8
    decreases 8 - r
  {
    r < 8 && (MovableInRow(b, c, h, r, 0) || MovableFromRow(b, c, h, r + 1))
  }

  /** The scan shared by `isCheckmate` and `isStalemate` finds no piece of colour `c` with a legal move. */
  predicate NoLegalMoves(b: Board, c: Color, h: seq<Move>)
    requires ValidBoard(b)
  {
    !MovableFromRow(b, c, h, 0)
  }

  /** `isCheckmate`. */
  predicate Checkmated(b: Board, c: Color, h: seq<Move>)
    requires ValidBoard(b)
  {
    KingInCheck(b, c) && NoLegalMoves(b, c, h)
  }

  /** `isStalemate`. */
  predicate Stalemated(b: Board, c: Color, h: seq<Move>)
    requires ValidBoard(b)
  {
    !KingInCheck(b, c) && NoLegalMoves(b, c, h)
  }

  // ----- The source's step-by-step form -----

  /** `isKingInCheck`: two nested scans that stop at the first king, then the oracle. */
  method IsKingInCheck(b: Board, kingColor: Color) returns (inCheck: bool)
    requires ValidBoard(b)
    ensures inCheck == KingInCheck(b, kingColor)
  {
    var kingPos: Option<Pos> := None;
    var r := 0;
    while r < 8
      invariant 0 <= r <= 8 && kingPos == None
      invariant FindKing(b, kingColor) == FindKingFrom(b, kingColor, r)
    {
      var c := 0;
      while c < 8
        invariant 0 <= c <= 8 && kingPos == None
        invariant FindKingInRow(b, kingColor, r, 0) == FindKingInRow(b, kingColor, r, c)
      {
        var piece := b[r][c];
        if piece.Some? && piece.value.kind == King && piece.value.color == kingColor {
          kingPos := Some(Pos(r, c));
          break;
        }
        c := c + 1;
      }
      if kingPos.Some? {
        break;
      }
      r := r + 1;
    }
    assert kingPos == FindKing(b, kingColor);
    if kingPos.None? {
      return false;
    }
    var opponentColor := if kingColor == White then Black else White;
    inCheck := IsSquareAttacked(b, kingPos.value, opponentColor);
  }

  /** `getLegalMoves`: the generated moves, filtered by a check test on a copy of the board. */
  method GetLegalMoves(b: Board, from: Pos, h: seq<Move>) returns (legal: seq<Pos>)
    requires ValidBoard(b) && OnBoard(from)
    ensures legal == LegalMoves(b, from, h)
  {
    var piece := b[from.row][from.col];
    if piece.None? {
      return [];
    }
    var validMoves := GetValidMoves(b, from, h, false);
    legal := [];
    for k := 0 to |validMoves|
      invariant legal == SafeMoves(b, from, validMoves[..k])
    {
      var to := validMoves[k];
      var newBoard := Simulate(b, from, to);
      var inCheck := IsKingInCheck(newBoard, piece.value.color);
      assert validMoves[..k + 1][..k] == validMoves[..k];
      if !inCheck {
        legal := legal + [to];
      }
    }
    assert validMoves[..|validMoves|] == validMoves;
  }

  /** The scan of `isCheckmate` and `isStalemate`: stops at the first piece of colour `c` with a legal move. */
  method AnyLegalMove(b: Board, c: Color, h: seq<Move>) returns (found: bool)
    requires ValidBoard(b)
    ensures found == !NoLegalMoves(b, c, h)
  {
    for r := 0 to 8
      invariant MovableFromRow(b, c, h, 0) == MovableFromRow(b, c, h, r)
    {
      for col := 0 to 8
        invariant MovableFromRow(b, c, h, r) == (MovableInRow(b, c, h, r, col) || MovableFromRow(b, c, h, r + 1))
      {
        var piece := b[r][col];
        if piece.Some? && piece.value.color == c {
          var legal := GetLegalMoves(b, Pos(r, col), h);
          if |legal| > 0 {
            return true;
          }
        }
      }
    }
    return false;
  }

  /** `isCheckmate`: in check, and no piece of that colour has a legal move. */
  method IsCheckmate(b: Board, kingColor: Color, h: seq<Move>) returns (mate: bool)
    requires ValidBoard(b)
    ensures mate == Checkmated(b, kingColor, h)
  {
    var inCheck := IsKingInCheck(b, kingColor);
    if !inCheck {
      return false;
    }
    var found := AnyLegalMove(b, kingColor, h);
    return !found;
  }

  /** `isStalemate`: not in check, and no piece of that colour has a legal move. */
  method IsStalemate(b: Board, kingColor: Color, h: seq<Move>) returns (stale: bool)
    requires ValidBoard(b)
    ensures stale == Stalemated(b, kingColor, h)
  {
    var inCheck := IsKingInCheck(b, kingColor);
    if inCheck {
      return false;
    }
    var found := AnyLegalMove(b, kingColor, h);
    return !found;
  }
}
