/**
 * The pseudo-legal move generator `getValidMoves` (with its helpers `addMove`,
 * `addCaptureMove`, `addPawnMove` and `checkLine`) and the attack oracle
 * `isSquareAttacked` of src/lib/chess-logic.ts.
 *
 * The two are mutually recursive: the king's castling rule asks the oracle,
 * and the oracle asks the generator with castling switched off. The flag
 * `skipCastling` is what makes the recursion stop: it leads the measure of
 * the `decreases` clauses below.
 *
 * Each operation is given twice: as a function, which is what the lemmas talk
 * about, and as a method that does what the source does step by step and is
 * proved to compute that function. Moves are produced in the source's order.
 */
module MoveGen {
  import opened Wrappers
  import opened ChessBoard

  /** Row direction of a pawn of colour `c`: white moves up the board. */
  function Dir(c: Color): int
  {
    if c == White then -1 else 1
  }

  function StartRow(c: Color): int
  {
    if c == White then 6 else 1
  }

  function Abs(x: int): nat
  {
    if x < 0 then -x else x
  }

  /** `[to]` when `cond` holds, else nothing: one conditional `moves.push(to)`. */
  function When(cond: bool, to: Pos): seq<Pos>
  {
    if cond then [to] else []
  }

  /** The test of `addMove`: on the board and not held by the mover's colour. */
  predicate CanLand(b: Board, color: Color, to: Pos)
    requires ValidBoard(b)
  {
    OnBoard(to) && !HasColor(b[to.row][to.col], color)
  }

  /** The test of `addCaptureMove`: on the board and held by the other colour. */
  predicate CanCapture(b: Board, color: Color, to: Pos)
    requires ValidBoard(b)
  {
    OnBoard(to) && b[to.row][to.col].Some? && b[to.row][to.col].value.color != color
  }

  /** The test of `addPawnMove`: on the board and empty. */
  predicate CanAdvance(b: Board, to: Pos)
    requires ValidBoard(b)
  {
    OnBoard(to) && b[to.row][to.col].None?
  }

  /**
   * The en passant test on the last history entry: it moved a pawn two rows,
   * and landed on the mover's row one column away. (Whose pawn it was is not
   * looked at.)
   */
  predicate EnPassantReady(from: Pos, h: seq<Move>)
  {
    |h| > 0 && h[|h| - 1].piece.kind == Pawn && Abs(h[|h| - 1].from.row - h[|h| - 1].to.row) == 2 &&
    from.row == h[|h| - 1].to.row && Abs(from.col - h[|h| - 1].to.col) == 1
  }

  /** The pawn's forward steps: one square, or two from its start row over an empty square. */
  function PawnAdvances(b: Board, from: Pos, color: Color): seq<Pos>
    requires ValidBoard(b) && OnBoard(from)
  {
    var one := Pos(from.row + Dir(color), from.col);
    var two := Pos(from.row + 2 * Dir(color), from.col);
    When(CanAdvance(b, one), one)
    + (if from.row == StartRow(color) && b[one.row][one.col].None? then When(CanAdvance(b, two), two) else [])
  }

  /** The en passant target `(from.row + dir, lastMove.to.col)`, when the test holds. */
  function EnPassant(from: Pos, color: Color, h: seq<Move>): seq<Pos>
  {
    if EnPassantReady(from, h) then [Pos(from.row + Dir(color), h[|h| - 1].to.col)] else []
  }

  /** The pawn's diagonal captures and its en passant target. */
  function PawnCaptures(b: Board, from: Pos, color: Color, h: seq<Move>): seq<Pos>
    requires ValidBoard(b) && OnBoard(from)
  {
    var left := Pos(from.row + Dir(color), from.col - 1);
    var right := Pos(from.row + Dir(color), from.col + 1);
    When(CanCapture(b, color, left), left)
    + When(CanCapture(b, color, right), right)
    + EnPassant(from, color, h)
  }

  /** The pawn branch of `getValidMoves`. */
  function PawnMoves(b: Board, from: Pos, color: Color, h: seq<Move>): seq<Pos>
    requires ValidBoard(b) && OnBoard(from)
  {
    PawnAdvances(b, from, color) + PawnCaptures(b, from, color, h)
  }

  /** `i` times a unit direction `d` (-1, 0 or 1). */
  function Scaled(i: int, d: int): int
  {
    if d > 0 then i else if d < 0 then -i else 0
  }

  /** The `i`-th square of the ray from `from` in direction (`dr`, `dc`). */
  function RaySquare(from: Pos, dr: int, dc: int, i: int): Pos
  {
    Pos(from.row + Scaled(i, dr), from.col + Scaled(i, dc))
  }

  /** What `checkLine` pushes for the square `to`. */
  function LinePush(b: Board, color: Color, to: Pos): seq<Pos>
    requires ValidBoard(b)
  {
    if !OnBoard(to) then []
    else if b[to.row][to.col].Some? then When(b[to.row][to.col].value.color != color, to)
    else [to]
  }

  /** What `checkLine` returns: the ray goes on past `to`. */
  predicate LineOpen(b: Board, to: Pos)
    requires ValidBoard(b)
  {
    OnBoard(to) && b[to.row][to.col].None?
  }

  /**
   * The squares pushed by `for (let i = k; i < 8; i++) { if (!checkLine(from,
   * {row: i*dr, col: i*dc}, ...)) break; }`.
   */
  function Ray(b: Board, from: Pos, dr: int, dc: int, color: Color, i: nat): seq<Pos>
    requires ValidBoard(b) && 1 <= i <= 8
    decreases 8 - i
  {
    if i == 8 then []
    else
      var to := RaySquare(from, dr, dc, i);
      LinePush(b, color, to) + (if LineOpen(b, to) then Ray(b, from, dr, dc, color, i + 1) else [])
  }

  /** The four rays of a rook (and of a queen), in the source's order. */
  function RookRays(b: Board, from: Pos, color: Color): seq<Pos>
    requires ValidBoard(b)
  {
    Ray(b, from, 1, 0, color, 1) + Ray(b, from, -1, 0, color, 1) +
    Ray(b, from, 0, 1, color, 1) + Ray(b, from, 0, -1, color, 1)
  }

  /** The four rays of a bishop (and of a queen), in the source's order. */
  function BishopRays(b: Board, from: Pos, color: Color): seq<Pos>
    requires ValidBoard(b)
  {
    Ray(b, from, 1, 1, color, 1) + Ray(b, from, -1, -1, color, 1) +
    Ray(b, from, 1, -1, color, 1) + Ray(b, from, -1, 1, color, 1)
  }

  const KnightOffsets: seq<(int, int)> := [(-2, -1), (-2, 1), (-1, -2), (-1, 2), (1, -2), (1, 2), (2, -1), (2, 1)]
  const KingOffsets: seq<(int, int)> := [(-1, -1), (-1, 0), (-1, 1), (0, -1), (0, 1), (1, -1), (1, 0), (1, 1)]

  function Shift(from: Pos, d: (int, int)): Pos
  {
    Pos(from.row + d.0, from.col + d.1)
  }

  /** `offsets.forEach(([dr, dc]) => addMove({row: from.row + dr, col: from.col + dc}))`. */
  function Steps(b: Board, from: Pos, color: Color, offsets: seq<(int, int)>): seq<Pos>
    requires ValidBoard(b)
    decreases |offsets|
  {
    if offsets == [] then []
    else
      var to := Shift(from, offsets[|offsets| - 1]);
      Steps(b, from, color, offsets[..|offsets| - 1]) + When(CanLand(b, color, to), to)
  }

  /** Every branch of `getValidMoves` but castling, in the source's order. */
  function PieceMoves(b: Board, from: Pos, p: Piece, h: seq<Move>): seq<Pos>
    requires ValidBoard(b) && OnBoard(from)
  {
    (if p.kind == Pawn then PawnMoves(b, from, p.color, h) else [])
    + (if p.kind == Rook || p.kind == Queen then RookRays(b, from, p.color) else [])
    + (if p.kind == Bishop || p.kind == Queen then BishopRays(b, from, p.color) else [])
    + (if p.kind == Knight then Steps(b, from, p.color, KnightOffsets) else [])
    + (if p.kind == King then Steps(b, from, p.color, KingOffsets) else [])
  }

  /** Some history entry moved a king of colour `c`. */
  predicate KingMoved(h: seq<Move>, c: Color)
  {
    exists i :: 0 <= i < |h| && h[i].piece.kind == King && h[i].piece.color == c
  }

  /** Some history entry moved a rook (of either colour) away from (row, col). */
  predicate RookMoved(h: seq<Move>, row: int, col: int)
  {
    exists i :: 0 <= i < |h| && h[i].from == Pos(row, col) && h[i].piece.kind == Rook
  }

  /** The castling conditions of the queenside (column 0) rook. */
  predicate QueensideOpen(b: Board, from: Pos, h: seq<Move>, opp: Color)
    requires ValidBoard(b) && OnBoard(from)
    decreases 5, 0
  {
    var row := from.row;
    !RookMoved(h, row, 0) && IsKind(b[row][0], Rook) &&
    b[row][1].None? && b[row][2].None? && b[row][3].None? &&
    !Attacked(b, Pos(row, 2), opp) && !Attacked(b, Pos(row, 3), opp)
  }

  /** The castling conditions of the kingside (column 7) rook. */
  predicate KingsideOpen(b: Board, from: Pos, h: seq<Move>, opp: Color)
    requires ValidBoard(b) && OnBoard(from)
    decreases 5, 0
  {
    var row := from.row;
    !RookMoved(h, row, 7) && IsKind(b[row][7], Rook) &&
    b[row][5].None? && b[row][6].None? &&
    !Attacked(b, Pos(row, 5), opp) && !Attacked(b, Pos(row, 6), opp)
  }

  /** The castling part of the king branch (taken only when castling is not skipped). */
  function CastleMoves(b: Board, from: Pos, color: Color, h: seq<Move>): seq<Pos>
    requires ValidBoard(b) && OnBoard(from)
    decreases 6, 0
  {
    var opp := Opponent(color);
    if KingMoved(h, color) || Attacked(b, from, opp) then []
    else
      (if QueensideOpen(b, from, h, opp) then [Pos(from.row, from.col - 2)] else [])
      + (if KingsideOpen(b, from, h, opp) then [Pos(from.row, from.col + 2)] else [])
  }

  /**
   * The piece on `q` has colour `attacker` and `p` among its pseudo-legal
   * moves, generated with an empty history and no castling.
   */
  predicate AttacksFrom(b: Board, q: Pos, p: Pos, attacker: Color)
    requires ValidBoard(b) && OnBoard(q)
    decreases 1, 0
  {
    HasColor(b[q.row][q.col], attacker) && p in ValidMoves(b, q, [], true)
  }

  /** Some square of row `r` from column `c` on holds an attacker of `p`. */
  predicate AttackerInRow(b: Board, p: Pos, attacker: Color, r: int, c: int)
    requires ValidBoard(b) && 0 <= r < 8 && 0 <= c <= 8
    decreases 2, 8 - c
  {
    c < 8 && (AttacksFrom(b, Pos(r, c), p, attacker) || AttackerInRow(b, p, attacker, r, c + 1))
  }

  /** Some square of the rows from `r` on holds an attacker of `p`. */
  predicate AttackerFromRow(b: Board, p: Pos, attacker: Color, r: int)
    requires ValidBoard(b) && 0 <= r <= 8
    decreases 3, 8 - r
  {
    r < 8 && (AttackerInRow(b, p, attacker, r, 0) || AttackerFromRow(b, p, attacker, r + 1))
  }

  /** `isSquareAttacked`: the row-major scan finds an attacker of `p`. */
  predicate Attacked(b: Board, p: Pos, attacker: Color)
    requires ValidBoard(b)
    decreases 4, 0
  {
    AttackerFromRow(b, p, attacker, 0)
  }

  /** `getValidMoves(board, from, moveHistory, skipCastling)`. */
  function ValidMoves(b: Board, from: Pos, h: seq<Move>, skipCastling: bool): seq<Pos>
    requires ValidBoard(b) && OnBoard(from)
    decreases if skipCastling then 0 else 7, 0
  {
    match b[from.row][from.col]
    case None => []
    case Some(p) =>
      PieceMoves(b, from, p, h) + (if p.kind == King && !skipCastling then CastleMoves(b, from, p.color, h) else [])
  }

  // ----- The source's step-by-step form -----

  lemma AppendAssoc(a: seq<Pos>, b: seq<Pos>, c: seq<Pos>)
    ensures a + (b + c) == (a + b) + c
  {
  }

  /** `addMove(to)`. */
  method AddMove(b: Board, color: Color, to: Pos, moves: seq<Pos>) returns (moves': seq<Pos>)
    requires ValidBoard(b)
    ensures moves' == moves + When(CanLand(b, color, to), to)
  {
    moves' := moves;
    if to.row >= 0 && to.row < 8 && to.col >= 0 && to.col < 8 {
      var targetPiece := b[to.row][to.col];
      if targetPiece.None? || targetPiece.value.color != color {
        moves' := moves' + [to];
      }
    }
  }

  /** `addCaptureMove(to)`. */
  method AddCaptureMove(b: Board, color: Color, to: Pos, moves: seq<Pos>) returns (moves': seq<Pos>)
    requires ValidBoard(b)
    ensures moves' == moves + When(CanCapture(b, color, to), to)
  {
    moves' := moves;
    if to.row >= 0 && to.row < 8 && to.col >= 0 && to.col < 8 {
      var targetPiece := b[to.row][to.col];
      if targetPiece.Some? && targetPiece.value.color != color {
        moves' := moves' + [to];
      }
    }
  }

  /** `addPawnMove(to)`. */
  method AddPawnMove(b: Board, to: Pos, moves: seq<Pos>) returns (moves': seq<Pos>)
    requires ValidBoard(b)
    ensures moves' == moves + When(CanAdvance(b, to), to)
  {
    moves' := moves;
    if to.row >= 0 && to.row < 8 && to.col >= 0 && to.col < 8 {
      if b[to.row][to.col].None? {
        moves' := moves' + [to];
      }
    }
  }

  /**
   * `checkLine(from, delta, moves, board, color)`: pushes onto `moves` and
   * says whether the ray continues past `from + delta`.
   */
  method CheckLine(from: Pos, delta: Pos, moves: seq<Pos>, b: Board, color: Color)
    returns (moves': seq<Pos>, open: bool)
    requires ValidBoard(b)
    ensures var to := Pos(from.row + delta.row, from.col + delta.col);
      moves' == moves + LinePush(b, color, to) && open == LineOpen(b, to)
  {
    var to := Pos(from.row + delta.row, from.col + delta.col);
    if to.row < 0 || to.row >= 8 || to.col < 0 || to.col >= 8 {
      return moves, false;
    }
    var target := b[to.row][to.col];
    if target.Some? {
      moves' := moves;
      if target.value.color != color {
        moves' := moves' + [to];
      }
      return moves', false;
    }
    return moves + [to], true;
  }

  /** One turn of the loop in `Slide`: the squares pushed so far and the rest of the ray. */
  lemma RayStep(b: Board, from: Pos, dr: int, dc: int, color: Color, i: nat, before: seq<Pos>, after: seq<Pos>, open: bool)
    requires ValidBoard(b) && 1 <= i < 8
    requires after == before + LinePush(b, color, RaySquare(from, dr, dc, i))
    requires open == LineOpen(b, RaySquare(from, dr, dc, i))
    ensures open ==> after + Ray(b, from, dr, dc, color, i + 1) == before + Ray(b, from, dr, dc, color, i)
    ensures !open ==> after == before + Ray(b, from, dr, dc, color, i)
  {
    var to := RaySquare(from, dr, dc, i);
    if open {
      AppendAssoc(before, LinePush(b, color, to), Ray(b, from, dr, dc, color, i + 1));
    } else {
      assert Ray(b, from, dr, dc, color, i) == LinePush(b, color, to) + [];
    }
  }

  /** One ray loop of the rook/bishop/queen branch. */
  method Slide(b: Board, from: Pos, dr: int, dc: int, color: Color, moves: seq<Pos>) returns (moves': seq<Pos>)
    requires ValidBoard(b)
    ensures moves' == moves + Ray(b, from, dr, dc, color, 1)
  {
    moves' := moves;
    var i := 1;
    while i < 8
      invariant 1 <= i <= 8
      invariant moves' + Ray(b, from, dr, dc, color, i) == moves + Ray(b, from, dr, dc, color, 1)
    {
      var open;
      ghost var before := moves';
      moves', open := CheckLine(from, Pos(Scaled(i, dr), Scaled(i, dc)), moves', b, color);
      assert Pos(from.row + Scaled(i, dr), from.col + Scaled(i, dc)) == RaySquare(from, dr, dc, i);
      RayStep(b, from, dr, dc, color, i, before, moves', open);
      if !open {
        return;
      }
      i := i + 1;
    }
  }

  /** One `forEach` over a table of offsets, calling `addMove`. */
  method StepAll(b: Board, from: Pos, color: Color, offsets: seq<(int, int)>, moves: seq<Pos>)
    returns (moves': seq<Pos>)
    requires ValidBoard(b)
    ensures moves' == moves + Steps(b, from, color, offsets)
  {
    moves' := moves;
    for k := 0 to |offsets|
      invariant moves' == moves + Steps(b, from, color, offsets[..k])
    {
      assert offsets[..k + 1][..k] == offsets[..k];
      moves' := AddMove(b, color, Pos(from.row + offsets[k].0, from.col + offsets[k].1), moves');
    }
    assert offsets[..|offsets|] == offsets;
  }

  /** The en passant part of the pawn branch. */
  method AddEnPassant(from: Pos, color: Color, h: seq<Move>, moves: seq<Pos>) returns (moves': seq<Pos>)
    ensures moves' == moves + EnPassant(from, color, h)
  {
    moves' := moves;
    var dir := Dir(color);
    if |h| > 0 {
      var lastMove := h[|h| - 1];
      if lastMove.piece.kind == Pawn && Abs(lastMove.from.row - lastMove.to.row) == 2 {
        if from.row == lastMove.to.row && Abs(from.col - lastMove.to.col) == 1 {
          moves' := moves' + [Pos(from.row + dir, lastMove.to.col)];
        }
      }
    }
  }

  /** The forward steps of the pawn branch. */
  method AddPawnAdvances(b: Board, from: Pos, color: Color, moves: seq<Pos>) returns (moves': seq<Pos>)
    requires ValidBoard(b) && OnBoard(from)
    ensures moves' == moves + PawnAdvances(b, from, color)
  {
    var dir := Dir(color);
    var startRow := StartRow(color);
    moves' := AddPawnMove(b, Pos(from.row + dir, from.col), moves);
    if from.row == startRow && b[from.row + dir][from.col].None? {
      moves' := AddPawnMove(b, Pos(from.row + 2 * dir, from.col), moves');
    }
  }

  /** The pawn branch: forward steps, diagonal captures, en passant. */
  method AddPawnMoves(b: Board, from: Pos, color: Color, h: seq<Move>, moves: seq<Pos>)
    returns (moves': seq<Pos>)
    requires ValidBoard(b) && OnBoard(from)
    ensures moves' == moves + PawnMoves(b, from, color, h)
  {
    var dir := Dir(color);
    ghost var left := Pos(from.row + dir, from.col - 1);
    ghost var right := Pos(from.row + dir, from.col + 1);
    ghost var l, r := When(CanCapture(b, color, left), left), When(CanCapture(b, color, right), right);
    var m1 := AddPawnAdvances(b, from, color, moves);
    var m2 := AddCaptureMove(b, color, Pos(from.row + dir, from.col - 1), m1);
    var m3 := AddCaptureMove(b, color, Pos(from.row + dir, from.col + 1), m2);
    moves' := AddEnPassant(from, color, h, m3);
    ghost var adv, ep := PawnAdvances(b, from, color), EnPassant(from, color, h);
    calc {
      moves';
      ((moves + adv) + l) + r + ep;
      { AppendAssoc(moves + adv, l, r); }
      ((moves + adv) + (l + r)) + ep;
      { AppendAssoc(moves + adv, l + r, ep); }
      (moves + adv) + ((l + r) + ep);
      { AppendAssoc(moves, adv, (l + r) + ep); }
      moves + (adv + ((l + r) + ep));
    }
  }

  /** The castling part of the king branch, asking the oracle as the source does. */
  method AddCastleMoves(b: Board, from: Pos, color: Color, h: seq<Move>, moves: seq<Pos>)
    returns (moves': seq<Pos>)
    requires ValidBoard(b) && OnBoard(from)
    ensures moves' == moves + CastleMoves(b, from, color, h)
    decreases 5
  {
    moves' := moves;
    var kingMoved := exists i :: 0 <= i < |h| && h[i].piece.kind == King && h[i].piece.color == color;
    var opponentColor := if color == White then Black else White;
    if kingMoved {
      return;
    }
    assert opponentColor == Opponent(color) && !KingMoved(h, color);
    var fromAttacked := IsSquareAttacked(b, from, opponentColor);
    if fromAttacked {
      return;
    }
    moves' := AddCastleSides(b, from, h, opponentColor, moves');
  }

  /** The two rook sides of the castling part, queenside first. */
  method AddCastleSides(b: Board, from: Pos, h: seq<Move>, opponentColor: Color, moves: seq<Pos>)
    returns (moves': seq<Pos>)
    requires ValidBoard(b) && OnBoard(from)
    ensures moves' == moves + (When(QueensideOpen(b, from, h, opponentColor), Pos(from.row, from.col - 2))
      + When(KingsideOpen(b, from, h, opponentColor), Pos(from.row, from.col + 2)))
    decreases 4
  {
    moves' := moves;
    var q := QueensideCheck(b, from, h, opponentColor);
    if q {
      moves' := moves' + [Pos(from.row, from.col - 2)];
    }
    ghost var left := When(q, Pos(from.row, from.col - 2));
    assert moves' == moves + left;
    var k := KingsideCheck(b, from, h, opponentColor);
    if k {
      moves' := moves' + [Pos(from.row, from.col + 2)];
    }
    ghost var right := When(k, Pos(from.row, from.col + 2));
    assert moves' == (moves + left) + right;
    AppendAssoc(moves, left, right);
  }

  /** The queenside test of the king branch; the attack checks short-circuit. */
  method QueensideCheck(b: Board, from: Pos, h: seq<Move>, opponentColor: Color) returns (ok: bool)
    requires ValidBoard(b) && OnBoard(from)
    ensures ok == QueensideOpen(b, from, h, opponentColor)
    decreases 3
  {
    var row := from.row;
    var rook1Moved := exists i :: 0 <= i < |h| && h[i].from == Pos(row, 0) && h[i].piece.kind == Rook;
    if rook1Moved || !IsKind(b[row][0], Rook) || b[row][1].Some? || b[row][2].Some? || b[row][3].Some? {
      return false;
    }
    var a2 := IsSquareAttacked(b, Pos(row, 2), opponentColor);
    if a2 {
      return false;
    }
    var a3 := IsSquareAttacked(b, Pos(row, 3), opponentColor);
    return !a3;
  }

  /** The kingside test of the king branch; the attack checks short-circuit. */
  method KingsideCheck(b: Board, from: Pos, h: seq<Move>, opponentColor: Color) returns (ok: bool)
    requires ValidBoard(b) && OnBoard(from)
    ensures ok == KingsideOpen(b, from, h, opponentColor)
    decreases 3
  {
    var row := from.row;
    var rook2Moved := exists i :: 0 <= i < |h| && h[i].from == Pos(row, 7) && h[i].piece.kind == Rook;
    if rook2Moved || !IsKind(b[row][7], Rook) || b[row][5].Some? || b[row][6].Some? {
      return false;
    }
    var a5 := IsSquareAttacked(b, Pos(row, 5), opponentColor);
    if a5 {
      return false;
    }
    var a6 := IsSquareAttacked(b, Pos(row, 6), opponentColor);
    return !a6;
  }

  /** The rook rays, in the source's order. */
  method AddRookRays(b: Board, from: Pos, color: Color, moves: seq<Pos>) returns (moves': seq<Pos>)
    requires ValidBoard(b)
    ensures moves' == moves + RookRays(b, from, color)
  {
    var m1 := Slide(b, from, 1, 0, color, moves);
    var m2 := Slide(b, from, -1, 0, color, m1);
    var m3 := Slide(b, from, 0, 1, color, m2);
    moves' := Slide(b, from, 0, -1, color, m3);
    ghost var r1, r2, r3, r4 := Ray(b, from, 1, 0, color, 1), Ray(b, from, -1, 0, color, 1),
      Ray(b, from, 0, 1, color, 1), Ray(b, from, 0, -1, color, 1);
    calc {
      moves';
      ((moves + r1) + r2) + r3 + r4;
      { AppendAssoc(moves, r1, r2); }
      (moves + (r1 + r2)) + r3 + r4;
      { AppendAssoc(moves, r1 + r2, r3); }
      (moves + (r1 + r2 + r3)) + r4;
      { AppendAssoc(moves, r1 + r2 + r3, r4); }
      moves + (r1 + r2 + r3 + r4);
    }
  }

  /** The bishop rays, in the source's order. */
  method AddBishopRays(b: Board, from: Pos, color: Color, moves: seq<Pos>) returns (moves': seq<Pos>)
    requires ValidBoard(b)
    ensures moves' == moves + BishopRays(b, from, color)
  {
    var m1 := Slide(b, from, 1, 1, color, moves);
    var m2 := Slide(b, from, -1, -1, color, m1);
    var m3 := Slide(b, from, 1, -1, color, m2);
    moves' := Slide(b, from, -1, 1, color, m3);
    ghost var r1, r2, r3, r4 := Ray(b, from, 1, 1, color, 1), Ray(b, from, -1, -1, color, 1),
      Ray(b, from, 1, -1, color, 1), Ray(b, from, -1, 1, color, 1);
    calc {
      moves';
      ((moves + r1) + r2) + r3 + r4;
      { AppendAssoc(moves, r1, r2); }
      (moves + (r1 + r2)) + r3 + r4;
      { AppendAssoc(moves, r1 + r2, r3); }
      (moves + (r1 + r2 + r3)) + r4;
      { AppendAssoc(moves, r1 + r2 + r3, r4); }
      moves + (r1 + r2 + r3 + r4);
    }
  }

  /** The branches of `getValidMoves` before castling, one per piece kind, each appending to `moves`. */
  method AddPieceMoves(b: Board, from: Pos, piece: Piece, h: seq<Move>) returns (moves: seq<Pos>)
    requires ValidBoard(b) && OnBoard(from)
    ensures moves == PieceMoves(b, from, piece, h)
  {
    var kind, color := piece.kind, piece.color;
    ghost var pawn := if kind == Pawn then PawnMoves(b, from, color, h) else [];
    ghost var rook := if kind == Rook || kind == Queen then RookRays(b, from, color) else [];
    ghost var bishop := if kind == Bishop || kind == Queen then BishopRays(b, from, color) else [];
    ghost var knight := if kind == Knight then Steps(b, from, color, KnightOffsets) else [];
    ghost var king := if kind == King then Steps(b, from, color, KingOffsets) else [];
    moves := [];
    if kind == Pawn {
      moves := AddPawnMoves(b, from, color, h, moves);
    }
    assert moves == pawn;
    if kind == Rook || kind == Queen {
      moves := AddRookRays(b, from, color, moves);
    }
    assert moves == pawn + rook;
    if kind == Bishop || kind == Queen {
      moves := AddBishopRays(b, from, color, moves);
    }
    assert moves == pawn + rook + bishop;
    if kind == Knight {
      moves := StepAll(b, from, color, KnightOffsets, moves);
    }
    assert moves == pawn + rook + bishop + knight;
    if kind == King {
      moves := StepAll(b, from, color, KingOffsets, moves);
    }
    assert moves == pawn + rook + bishop + knight + king;
  }

  /** `getValidMoves`: nothing for an empty square, else the piece's branches and castling. */
  method GetValidMoves(b: Board, from: Pos, h: seq<Move>, skipCastling: bool) returns (moves: seq<Pos>)
    requires ValidBoard(b) && OnBoard(from)
    ensures moves == ValidMoves(b, from, h, skipCastling)
    decreases if skipCastling then 0 else 6
  {
    var piece := b[from.row][from.col];
    if piece.None? {
      return [];
    }
    moves := AddPieceMoves(b, from, piece.value, h);
    if piece.value.kind == King && !skipCastling {
      moves := AddCastleMoves(b, from, piece.value.color, h, moves);
    }
  }

  /** The body of the scan in `isSquareAttacked`, for the square `q`. */
  method AttackerAt(b: Board, q: Pos, position: Pos, attackerColor: Color) returns (attacks: bool)
    requires ValidBoard(b) && OnBoard(q)
    ensures attacks == AttacksFrom(b, q, position, attackerColor)
    decreases 1
  {
    var piece := b[q.row][q.col];
    if piece.Some? && piece.value.color == attackerColor {
      var moves := GetValidMoves(b, q, [], true);
      return position in moves;
    }
    return false;
  }

  /** `isSquareAttacked`: scans the board row by row and stops at the first attacker. */
  method IsSquareAttacked(b: Board, position: Pos, attackerColor: Color) returns (attacked: bool)
    requires ValidBoard(b)
    ensures attacked == Attacked(b, position, attackerColor)
    decreases 2
  {
    for r := 0 to 8
      invariant Attacked(b, position, attackerColor) == AttackerFromRow(b, position, attackerColor, r)
    {
      for c := 0 to 8
        invariant AttackerFromRow(b, position, attackerColor, r) ==
          (AttackerInRow(b, position, attackerColor, r, c) || AttackerFromRow(b, position, attackerColor, r + 1))
      {
        var attacks := AttackerAt(b, Pos(r, c), position, attackerColor);
        if attacks {
          return true;
        }
      }
    }
    return false;
  }
}
