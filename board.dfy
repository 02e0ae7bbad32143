/**
 * The board model of src/lib/chess-logic.ts: colours, piece kinds, pieces,
 * squares, the 8x8 board, positions and history entries, and the initial
 * setup built by `initializeBoard`.
 */
module ChessBoard {
  import opened Wrappers

  /** `Player`: 'w' | 'b'. */
  datatype Color = White | Black

  /** `PieceType`: 'p' | 'r' | 'n' | 'b' | 'q' | 'k'. */
  datatype Kind = Pawn | Rook | Knight | Bishop | Queen | King

  /**
   * Stands for the id string `${color}${kind}-${index}` that setup builds
   * (`bp-3`, `wq-3`, ...). Two such strings are equal exactly when the three
   * parts are, which is all the program ever asks of an id.
   */
  datatype PieceId = PieceId(color: Color, kind: Kind, index: nat)

  datatype Piece = Piece(id: PieceId, kind: Kind, color: Color)

  /** A cell: `Piece | null`. */
  type Square = Option<Piece>

  /** Rows 0..7 top to bottom (row 0 is black's back rank), columns 0..7. */
  type Board = seq<seq<Square>>

  datatype Pos = Pos(row: int, col: int)

  /** A history entry `{ piece, from, to }`; `piece` is the mover as it was. */
  datatype Move = Move(piece: Piece, from: Pos, to: Pos)

  function Opponent(c: Color): (o: Color)
    ensures o != c
  {
    if c == White then Black else White
  }

  ghost predicate ValidBoard(b: Board)
  {
    |b| == 8 && forall r :: 0 <= r < 8 ==> |b[r]| == 8
  }

  predicate OnBoard(p: Pos)
  {
    0 <= p.row < 8 && 0 <= p.col < 8
  }

  predicate HasColor(sq: Square, c: Color)
  {
    sq.Some? && sq.value.color == c
  }

  predicate IsKind(sq: Square, k: Kind)
  {
    sq.Some? && sq.value.kind == k
  }

  /**
   * `newBoard[p.row][p.col] = sq` on a copy of the board. A position off the
   * board leaves the board as it is.
   */
  function Put(b: Board, p: Pos, sq: Square): (r: Board)
    requires ValidBoard(b)
    ensures ValidBoard(r)
    ensures forall q :: OnBoard(q) ==> r[q.row][q.col] == if q == p then sq else b[q.row][q.col]
  {
    if OnBoard(p) then b[p.row := b[p.row][p.col := sq]] else b
  }

  /** `PIECE_ORDER`. */
  const PieceOrder: seq<Kind> := [Rook, Knight, Bishop, Queen, King, Bishop, Knight, Rook]

  /** What setup leaves on square (r, c). */
  function StartSquare(r: int, c: int): Square
    requires 0 <= r < 8 && 0 <= c < 8
  {
    if r == 1 then Some(Piece(PieceId(Black, Pawn, c), Pawn, Black))
    else if r == 6 then Some(Piece(PieceId(White, Pawn, c), Pawn, White))
    else if r == 0 then Some(Piece(PieceId(Black, PieceOrder[c], c), PieceOrder[c], Black))
    else if r == 7 then Some(Piece(PieceId(White, PieceOrder[c], c), PieceOrder[c], White))
    else None
  }

  function InitialBoard(): (b: Board)
    ensures ValidBoard(b)
    ensures forall r, c :: 0 <= r < 8 && 0 <= c < 8 ==> b[r][c] == StartSquare(r, c)
  {
    seq(8, r requires 0 <= r < 8 => seq(8, c requires 0 <= c < 8 => StartSquare(r, c)))
  }

  /** An 8x8 board of empty squares: `Array(8).fill(null).map(() => Array(8).fill(null))`. */
  function EmptyBoard(): (b: Board)
    ensures ValidBoard(b)
    ensures forall r, c :: 0 <= r < 8 && 0 <= c < 8 ==> b[r][c].None?
  {
    seq(8, r => seq(8, c => None))
  }

  /** `initializeBoard`: pawns first, then the two back ranks, column by column. */
  method InitializeBoard() returns (board: Board)
    ensures board == InitialBoard()
  {
    board := EmptyBoard();
    for i := 0 to 8
      invariant ValidBoard(board)
      invariant forall r, c :: 0 <= r < 8 && 0 <= c < 8 ==>
        board[r][c] == if (r == 1 || r == 6) && c < i then StartSquare(r, c) else None
    {
      board := Put(board, Pos(1, i), Some(Piece(PieceId(Black, Pawn, i), Pawn, Black)));
      board := Put(board, Pos(6, i), Some(Piece(PieceId(White, Pawn, i), Pawn, White)));
    }
    for i := 0 to 8
      invariant ValidBoard(board)
      invariant forall r, c :: 0 <= r < 8 && 0 <= c < 8 ==>
        board[r][c] == if r == 1 || r == 6 || ((r == 0 || r == 7) && c < i) then StartSquare(r, c) else None
    {
      board := Put(board, Pos(0, i), Some(Piece(PieceId(Black, PieceOrder[i], i), PieceOrder[i], Black)));
      board := Put(board, Pos(7, i), Some(Piece(PieceId(White, PieceOrder[i], i), PieceOrder[i], White)));
    }
    BoardExt(board, InitialBoard());
  }

  /** Two 8x8 boards that agree on every square are equal. */
  lemma BoardExt(a: Board, b: Board)
    requires ValidBoard(a) && ValidBoard(b)
    requires forall r, c :: 0 <= r < 8 && 0 <= c < 8 ==> a[r][c] == b[r][c]
    ensures a == b
  {
    forall r | 0 <= r < 8 ensures a[r] == b[r] {
      assert forall c :: 0 <= c < 8 ==> a[r][c] == b[r][c];
    }
  }

  /** Number of pieces of colour `c` in a row of squares. */
  function RowCount(s: seq<Square>, c: Color): nat
  {
    if s == [] then 0 else (if HasColor(s[0], c) then 1 else 0) + RowCount(s[1..], c)
  }

  /** Number of pieces of colour `c` on a sequence of rows. */
  function PieceCount(rows: seq<seq<Square>>, c: Color): nat
  {
    if rows == [] then 0 else RowCount(rows[0], c) + PieceCount(rows[1..], c)
  }

  lemma {:induction false} RowCountNone(s: seq<Square>, c: Color)
    requires forall i :: 0 <= i < |s| ==> !HasColor(s[i], c)
    ensures RowCount(s, c) == 0
  {
    if s != [] { RowCountNone(s[1..], c); }
  }

  lemma {:induction false} RowCountAll(s: seq<Square>, c: Color)
    requires forall i :: 0 <= i < |s| ==> HasColor(s[i], c)
    ensures RowCount(s, c) == |s|
  {
    if s != [] { RowCountAll(s[1..], c); }
  }

  /** Rows 1 and 6 hold pawns, rows 0 and 7 the pieces of `PieceOrder`, rows 2..5 nothing. */
  lemma InitialLayout()
    ensures forall c :: 0 <= c < 8 ==>
      InitialBoard()[1][c] == Some(Piece(PieceId(Black, Pawn, c), Pawn, Black)) &&
      InitialBoard()[6][c] == Some(Piece(PieceId(White, Pawn, c), Pawn, White)) &&
      InitialBoard()[0][c] == Some(Piece(PieceId(Black, PieceOrder[c], c), PieceOrder[c], Black)) &&
      InitialBoard()[7][c] == Some(Piece(PieceId(White, PieceOrder[c], c), PieceOrder[c], White))
    ensures forall r, c :: 2 <= r < 6 && 0 <= c < 8 ==> InitialBoard()[r][c].None?
    ensures InitialBoard()[0][4] == Some(Piece(PieceId(Black, King, 4), King, Black))
    ensures InitialBoard()[7][4] == Some(Piece(PieceId(White, King, 4), King, White))
  {
  }

  /** Each side starts with exactly sixteen pieces. */
  lemma InitialCounts(c: Color)
    ensures PieceCount(InitialBoard(), c) == 16
  {
    var b := InitialBoard();
    var mine, theirs := if c == White then 6 else 0, if c == White then 0 else 6;
    forall r | 0 <= r < 8
      ensures RowCount(b[r], c) == if r == mine || r == mine + 1 then 8 else 0
    {
      if r == mine || r == mine + 1 {
        RowCountAll(b[r], c);
      } else {
        RowCountNone(b[r], c);
      }
    }
    assert b[7..][1..] == [];
    assert b[6..][1..] == b[7..];
    assert b[5..][1..] == b[6..];
    assert b[4..][1..] == b[5..];
    assert b[3..][1..] == b[4..];
    assert b[2..][1..] == b[3..];
    assert b[1..][1..] == b[2..];
  }

  /** No two pieces of the initial position share an id. */
  lemma InitialIdsDistinct()
    ensures forall p, q ::
      (OnBoard(p) && OnBoard(q) && p != q &&
       InitialBoard()[p.row][p.col].Some? && InitialBoard()[q.row][q.col].Some?) ==>
        InitialBoard()[p.row][p.col].value.id != InitialBoard()[q.row][q.col].value.id
  {
  }
}
