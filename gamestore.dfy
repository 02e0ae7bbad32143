/**
 * The game store of src/stores/useGameStore.ts: the state of one game and
 * the four actions `newGame`, `selectPiece`, `movePiece` and `promotePawn`.
 *
 * `GameState` is the store's record as a value, and `InitialState`,
 * `SelectSpec`, `MoveSpec` and `PromoteSpec` say what each action turns it
 * into. The class `Game` holds the same fields and updates them in place;
 * each of its methods is proved to reach the state its specification names
 * and to keep `ValidState`, the invariant every reachable state satisfies.
 */
module GameStore {
  import opened Wrappers
  import opened ChessBoard
  import opened MoveGen
  import opened MoveFacts
  import opened Legality
  import opened LegalityFacts

  datatype GameStatus = Playing | Checkmate | Stalemate | Promotion

  /** The square a pawn has just promoted on, and the id the new piece inherits. */
  datatype PromotionSquare = PromotionSquare(pos: Pos, pawnId: PieceId)

  /** `capturedPieces`: the pieces each side has taken, in the order taken. */
  datatype Captured = Captured(white: seq<Piece>, black: seq<Piece>)
  {
    function Of(c: Color): seq<Piece>
    {
      if c == White then white else black
    }

    /** Appends `p` to the list of side `c` and leaves the other side's list alone. */
    function Add(c: Color, p: Piece): (r: Captured)
      ensures r.Of(c) == Of(c) + [p]
      ensures r.Of(Opponent(c)) == Of(Opponent(c))
    {
      if c == White then this.(white := white + [p]) else this.(black := black + [p])
    }
  }

  /** The store's record (without its `actions`). */
  datatype GameState = GameState(
    board: Board,
    turn: Color,
    selectedPiece: Option<Pos>,
    validMoves: seq<Pos>,
    captured: Captured,
    gameStatus: GameStatus,
    promotionSquare: Option<PromotionSquare>,
    moveHistory: seq<Move>)

  /**
   * What holds of every state the store reaches: an 8x8 board, a history of
   * moves on the board, a pending promotion exactly while the status says so,
   * and a selection only while playing, on a piece of the side to move, with
   * its legal moves on display.
   */
  ghost predicate ValidState(s: GameState)
  {
    ValidBoard(s.board) && HistoryOk(s.moveHistory) &&
    (s.promotionSquare.Some? <==> s.gameStatus == Promotion) &&
    (s.promotionSquare.Some? ==> OnBoard(s.promotionSquare.value.pos)) &&
    match s.selectedPiece
    case None => s.validMoves == []
    case Some(p) =>
      s.gameStatus == Playing && OnBoard(p) && HasColor(s.board[p.row][p.col], s.turn) &&
      s.validMoves == LegalMoves(s.board, p, s.moveHistory)
  }

  /** The store's initial values, which `newGame` also restores. */
  function InitialState(): GameState
  {
    GameState(InitialBoard(), White, None, [], Captured([], []), Playing, None, [])
  }

  // ----- Classifying a position -----

  /**
   * The status `movePiece` and `promotePawn` give the position after a move:
   * checkmate is tested first, then stalemate. It is never `Promotion`, and
   * it is `Playing` exactly when the side to move has a legal move.
   */
  function Classify(b: Board, turn: Color, h: seq<Move>): (s: GameStatus)
    requires ValidBoard(b)
    ensures s != Promotion
    ensures s == Checkmate <==> KingInCheck(b, turn) && NoLegalMoves(b, turn, h)
    ensures s == Stalemate <==> !KingInCheck(b, turn) && NoLegalMoves(b, turn, h)
    ensures s == Playing <==> !NoLegalMoves(b, turn, h)
  {
    if Checkmated(b, turn, h) then Checkmate
    else if Stalemated(b, turn, h) then Stalemate
    else Playing
  }

  /** The `isCheckmate` / `isStalemate` cascade of the two actions. */
  method ClassifyPosition(b: Board, turn: Color, h: seq<Move>) returns (status: GameStatus)
    requires ValidBoard(b)
    ensures status == Classify(b, turn, h)
  {
    status := Playing;
    var mate := IsCheckmate(b, turn, h);
    if mate {
      status := Checkmate;
    } else {
      var stale := IsStalemate(b, turn, h);
      if stale {
        status := Stalemate;
      }
    }
  }

  // ----- The board after a move -----

  /** `movePiece` treats a sideways pawn move onto an empty square as en passant. */
  predicate EnPassantCapture(b: Board, from: Pos, to: Pos)
    requires ValidBoard(b) && OnBoard(from) && OnBoard(to)
  {
    IsKind(b[from.row][from.col], Pawn) && to.col != from.col && b[to.row][to.col].None?
  }

  /** The square of the pawn taken en passant by a pawn of colour `c` landing on `to`. */
  function Victim(to: Pos, c: Color): Pos
  {
    Pos(to.row + (if c == White then 1 else -1), to.col)
  }

  /** The preconditions under which `movePiece` moves the piece on `from` to `to`. */
  ghost predicate CanApply(b: Board, from: Pos, to: Pos)
  {
    ValidBoard(b) && OnBoard(from) && OnBoard(to) && b[from.row][from.col].Some? &&
    (EnPassantCapture(b, from, to) ==> OnBoard(Victim(to, b[from.row][from.col].value.color)))
  }

  /**
   * The board `movePiece` produces: the pawn taken en passant is removed, the
   * piece moves, and a king moving two columns brings its rook along.
   */
  function AfterMove(b: Board, from: Pos, to: Pos): (r: Board)
    requires CanApply(b, from, to)
    ensures ValidBoard(r)
  {
    var piece := b[from.row][from.col].value;
    var b0 := if EnPassantCapture(b, from, to) then Put(b, Victim(to, piece.color), None) else b;
    var b1 := Put(b0, to, Some(piece));
    var b2 := Put(b1, from, None);
    ShiftRook(b2, from, to, piece.kind)
  }

  /** What `movePiece` records as captured: the en passant victim or the piece on `to`. */
  function CapturedBy(b: Board, from: Pos, to: Pos): Square
    requires CanApply(b, from, to)
  {
    if EnPassantCapture(b, from, to) then
      var v := Victim(to, b[from.row][from.col].value.color);
      b[v.row][v.col]
    else b[to.row][to.col]
  }

  /** A pawn reaching the first or last row switches the game to `Promotion`. */
  predicate Promotes(piece: Piece, to: Pos)
  {
    piece.kind == Pawn && (to.row == 0 || to.row == 7)
  }

  /** The move `movePiece` accepts: there is a selection and `to` is one of its listed moves. */
  predicate Accepts(s: GameState, to: Pos)
  {
    s.selectedPiece.Some? && to in s.validMoves
  }

  /** An accepted move in a valid state can be applied to the board. */
  lemma AcceptedApplies(s: GameState, to: Pos)
    requires ValidState(s) && Accepts(s, to)
    ensures CanApply(s.board, s.selectedPiece.value, to)
    ensures HistoryOk(s.moveHistory + [Move(s.board[s.selectedPiece.value.row][s.selectedPiece.value.col].value, s.selectedPiece.value, to)])
  {
    var from := s.selectedPiece.value;
    LegalMovesTargets(s.board, from, s.moveHistory, to);
  }

  // ----- The actions as functions of the state -----

  /** `movePiece(to)`. */
  function MoveSpec(s: GameState, to: Pos): GameState
    requires ValidState(s)
  {
    if !Accepts(s, to) then s
    else
      var from := s.selectedPiece.value;
      AcceptedApplies(s, to);
      var piece := s.board[from.row][from.col].value;
      var newBoard := AfterMove(s.board, from, to);
      var cap := CapturedBy(s.board, from, to);
      var newCaptured := if cap.Some? then s.captured.Add(s.turn, cap.value) else s.captured;
      var newHistory := s.moveHistory + [Move(piece, from, to)];
      if Promotes(piece, to) then
        s.(board := newBoard, gameStatus := Promotion,
           promotionSquare := Some(PromotionSquare(to, piece.id)),
           selectedPiece := None, validMoves := [], moveHistory := newHistory,
           captured := newCaptured)
      else
        var newTurn := Opponent(s.turn);
        s.(board := newBoard, turn := newTurn, selectedPiece := None, validMoves := [],
           captured := newCaptured, gameStatus := Classify(newBoard, newTurn, newHistory),
           moveHistory := newHistory)
  }

  /** `selectPiece(pos)`. */
  function SelectSpec(s: GameState, pos: Pos): GameState
    requires ValidState(s) && OnBoard(pos)
  {
    if s.gameStatus != Playing then s
    else if s.selectedPiece == Some(pos) then s.(selectedPiece := None, validMoves := [])
    else if HasColor(s.board[pos.row][pos.col], s.turn) then
      s.(selectedPiece := Some(pos), validMoves := LegalMoves(s.board, pos, s.moveHistory))
    else if s.selectedPiece.Some? then MoveSpec(s, pos)
    else s
  }

  /** `promotePawn(kind)`. */
  function PromoteSpec(s: GameState, kind: Kind): GameState
    requires ValidState(s)
  {
    if s.promotionSquare.None? then s
    else
      var ps := s.promotionSquare.value;
      var newBoard := Put(s.board, ps.pos, Some(Piece(ps.pawnId, kind, s.turn)));
      var newTurn := Opponent(s.turn);
      s.(board := newBoard, turn := newTurn,
         gameStatus := Classify(newBoard, newTurn, s.moveHistory), promotionSquare := None)
  }

  // ----- What the actions promise -----

  /** The initial position is a valid state with sixteen pieces a side and white to move. */
  lemma InitialStateValid()
    ensures ValidState(InitialState())
    ensures InitialState().turn == White && InitialState().gameStatus == Playing
    ensures PieceCount(InitialState().board, White) == 16 && PieceCount(InitialState().board, Black) == 16
  {
    InitialCounts(White);
    InitialCounts(Black);
  }

  /** Every action keeps the state valid. */
  lemma MovePreservesValid(s: GameState, to: Pos)
    requires ValidState(s)
    ensures ValidState(MoveSpec(s, to))
  {
    if Accepts(s, to) {
      AcceptedApplies(s, to);
    }
  }

  lemma SelectPreservesValid(s: GameState, pos: Pos)
    requires ValidState(s) && OnBoard(pos)
    ensures ValidState(SelectSpec(s, pos))
  {
    MovePreservesValid(s, pos);
  }

  lemma PromotePreservesValid(s: GameState, kind: Kind)
    requires ValidState(s)
    ensures ValidState(PromoteSpec(s, kind))
  {
  }

  /** A move that is not on display changes nothing; while a game is over nothing is selected, so no move is accepted. */
  lemma MoveRejected(s: GameState, to: Pos)
    requires ValidState(s)
    requires s.gameStatus != Playing || to !in s.validMoves
    ensures MoveSpec(s, to) == s
  {
  }

  /**
   * An accepted move is a legal move of the selected piece of the side to
   * move. It appends exactly one entry to the history, clears the selection,
   * adds at most one piece, and only to the mover's captures, and passes the
   * turn unless a pawn promotes, which waits for `promotePawn`.
   */
  lemma MoveAccepted(s: GameState, to: Pos)
    requires ValidState(s) && Accepts(s, to)
    ensures var from := s.selectedPiece.value;
      var s' := MoveSpec(s, to);
      HasColor(s.board[from.row][from.col], s.turn) &&
      to in LegalMoves(s.board, from, s.moveHistory) &&
      s'.moveHistory == s.moveHistory + [Move(s.board[from.row][from.col].value, from, to)] &&
      s'.selectedPiece.None? && s'.validMoves == [] &&
      s'.captured.Of(Opponent(s.turn)) == s.captured.Of(Opponent(s.turn)) &&
      |s.captured.Of(s.turn)| <= |s'.captured.Of(s.turn)| <= |s.captured.Of(s.turn)| + 1 &&
      s'.captured.Of(s.turn)[..|s.captured.Of(s.turn)|] == s.captured.Of(s.turn) &&
      (s'.turn == s.turn <==> Promotes(s.board[from.row][from.col].value, to)) &&
      (s'.gameStatus == Promotion <==> Promotes(s.board[from.row][from.col].value, to))
  {
    AcceptedApplies(s, to);
  }

  /**
   * The board a move is tested on in `getLegalMoves` and the board
   * `movePiece` produces are the same, except that the second has the pawn
   * taken en passant removed.
   */
  lemma AfterMoveVersusSimulate(b: Board, from: Pos, to: Pos)
    requires CanApply(b, from, to)
    ensures !EnPassantCapture(b, from, to) ==> AfterMove(b, from, to) == Simulate(b, from, to)
    ensures EnPassantCapture(b, from, to) ==>
      var v := Victim(to, b[from.row][from.col].value.color);
      v != from && v != to &&
      AfterMove(b, from, to) == Put(Simulate(b, from, to), v, None)
  {
    if EnPassantCapture(b, from, to) {
      var v := Victim(to, b[from.row][from.col].value.color);
      BoardExt(AfterMove(b, from, to), Put(Simulate(b, from, to), v, None));
    }
  }

  /**
   * After an accepted move other than en passant the mover's own king is not
   * in check: the board it moves to is the one its legality was tested on.
   */
  lemma MoveKeepsKingSafe(s: GameState, to: Pos)
    requires ValidState(s) && Accepts(s, to) && OnBoard(to)
    requires !EnPassantCapture(s.board, s.selectedPiece.value, to)
    ensures !KingInCheck(MoveSpec(s, to).board, s.turn)
  {
    var from := s.selectedPiece.value;
    AcceptedApplies(s, to);
    LegalMovesMember(s.board, from, s.moveHistory, to);
    AfterMoveVersusSimulate(s.board, from, to);
  }

  /**
   * An ordinary move (not castling, not en passant) puts the piece on `to`,
   * empties `from` and leaves every other square as it was.
   */
  lemma AfterMoveSquares(b: Board, from: Pos, to: Pos, q: Pos)
    requires CanApply(b, from, to) && OnBoard(q) && from != to
    requires !EnPassantCapture(b, from, to)
    requires !(IsKind(b[from.row][from.col], King) && Abs(to.col - from.col) == 2)
    ensures AfterMove(b, from, to)[q.row][q.col] ==
      if q == to then b[from.row][from.col] else if q == from then None else b[q.row][q.col]
  {
  }

  /**
   * A king on the e-file castling kingside lands on the g-file with the rook
   * moved from the h-file to the f-file; every other square is unchanged.
   */
  lemma AfterCastleKingside(b: Board, from: Pos, q: Pos)
    requires ValidBoard(b) && OnBoard(from) && from.col == 4 && IsKind(b[from.row][from.col], King)
    requires OnBoard(q)
    ensures var r := AfterMove(b, from, Pos(from.row, 6));
      r[q.row][q.col] ==
        if q == Pos(from.row, 6) then b[from.row][4]
        else if q == Pos(from.row, 5) then b[from.row][7]
        else if q == from || q == Pos(from.row, 7) then None
        else b[q.row][q.col]
  {
  }

  /**
   * A king on the e-file castling queenside lands on the c-file with the rook
   * moved from the a-file to the d-file; every other square is unchanged.
   */
  lemma AfterCastleQueenside(b: Board, from: Pos, q: Pos)
    requires ValidBoard(b) && OnBoard(from) && from.col == 4 && IsKind(b[from.row][from.col], King)
    requires OnBoard(q)
    ensures var r := AfterMove(b, from, Pos(from.row, 2));
      r[q.row][q.col] ==
        if q == Pos(from.row, 2) then b[from.row][4]
        else if q == Pos(from.row, 3) then b[from.row][0]
        else if q == from || q == Pos(from.row, 0) then None
        else b[q.row][q.col]
  {
  }

  /**
   * An en passant capture moves the pawn, empties its start square and the
   * victim's square, and records the victim as captured.
   */
  lemma AfterEnPassant(b: Board, from: Pos, to: Pos, q: Pos)
    requires CanApply(b, from, to) && EnPassantCapture(b, from, to) && OnBoard(q)
    ensures var v := Victim(to, b[from.row][from.col].value.color);
      CapturedBy(b, from, to) == b[v.row][v.col] &&
      AfterMove(b, from, to)[q.row][q.col] ==
        if q == to then b[from.row][from.col] else if q == from || q == v then None else b[q.row][q.col]
  {
  }

  /**
   * `promotePawn` puts a piece of the chosen kind and of the side that
   * promoted on the promotion square, with the pawn's id, passes the turn,
   * ends the promotion and leaves history, captures and the other squares
   * alone. Without a pending promotion it does nothing.
   */
  lemma PromoteEffects(s: GameState, kind: Kind, q: Pos)
    requires ValidState(s) && OnBoard(q)
    ensures s.promotionSquare.None? ==> PromoteSpec(s, kind) == s
    ensures s.promotionSquare.Some? ==>
      var ps := s.promotionSquare.value;
      var s' := PromoteSpec(s, kind);
      s'.board[q.row][q.col] == (if q == ps.pos then Some(Piece(ps.pawnId, kind, s.turn)) else s.board[q.row][q.col]) &&
      s'.turn == Opponent(s.turn) && s'.promotionSquare.None? && s'.gameStatus != Promotion &&
      s'.moveHistory == s.moveHistory && s'.captured == s.captured && s'.selectedPiece.None?
  {
  }

  /**
   * A promoting move followed by `promotePawn` passes the turn once, leaves
   * the promoted piece on the pawn's target square and records one move.
   */
  lemma PromotionRoundTrip(s: GameState, to: Pos, kind: Kind)
    requires ValidState(s) && Accepts(s, to)
    requires Promotes(s.board[s.selectedPiece.value.row][s.selectedPiece.value.col].value, to)
    ensures var s1 := MoveSpec(s, to);
      ValidState(s1) &&
      var s2 := PromoteSpec(s1, kind);
      var pawn := s.board[s.selectedPiece.value.row][s.selectedPiece.value.col].value;
      s1.turn == s.turn && s1.gameStatus == Promotion &&
      s2.turn == Opponent(s.turn) && s2.gameStatus != Promotion &&
      s2.board[to.row][to.col] == Some(Piece(pawn.id, kind, s.turn)) &&
      |s2.moveHistory| == |s.moveHistory| + 1
  {
    MovePreservesValid(s, to);
    AcceptedApplies(s, to);
  }

  /** Selecting a piece of the side to move and then selecting it again leaves nothing selected and nothing moved. */
  lemma SelectTwice(s: GameState, pos: Pos)
    requires ValidState(s) && OnBoard(pos) && s.gameStatus == Playing
    requires HasColor(s.board[pos.row][pos.col], s.turn) && s.selectedPiece != Some(pos)
    ensures ValidState(SelectSpec(s, pos)) &&
      var s2 := SelectSpec(SelectSpec(s, pos), pos);
      s2.selectedPiece.None? && s2.validMoves == [] && s2.board == s.board && s2.turn == s.turn
  {
    SelectPreservesValid(s, pos);
  }

  /** While the game is over or a promotion is pending, `selectPiece` changes nothing. */
  lemma SelectIgnoredWhenNotPlaying(s: GameState, pos: Pos)
    requires ValidState(s) && OnBoard(pos) && s.gameStatus != Playing
    ensures SelectSpec(s, pos) == s
  {
  }

  /**
   * The board work of `movePiece` on its copy of the board: take the pawn
   * passed en passant, move the piece, and bring the rook along when the king
   * moves two columns. Returns the new board and what was captured.
   */
  method MakeMove(b: Board, from: Pos, to: Pos) returns (newBoard: Board, capturedPiece: Square)
    requires CanApply(b, from, to)
    ensures newBoard == AfterMove(b, from, to) && capturedPiece == CapturedBy(b, from, to)
  {
    var piece := b[from.row][from.col].value;
    newBoard := b;
    capturedPiece := newBoard[to.row][to.col];
    if piece.kind == Pawn && to.col != from.col && capturedPiece.None? {
      var dir := if piece.color == White then 1 else -1;
      var capturedPawnPos := Pos(to.row + dir, to.col);
      capturedPiece := newBoard[capturedPawnPos.row][capturedPawnPos.col];
      newBoard := Put(newBoard, capturedPawnPos, None);
    }
    newBoard := Put(newBoard, to, Some(piece));
    newBoard := Put(newBoard, from, None);
    if piece.kind == King && Abs(to.col - from.col) == 2 {
      var rookCol := if to.col > from.col then 7 else 0;
      var newRookCol := if to.col > from.col then 5 else 3;
      newBoard := Put(newBoard, Pos(from.row, newRookCol), newBoard[from.row][rookCol]);
      newBoard := Put(newBoard, Pos(from.row, rookCol), None);
    }
  }

  // ----- The store -----

  /** The zustand store: one object whose fields the actions overwrite. */
  class Game {
    var board: Board
    var turn: Color
    var selectedPiece: Option<Pos>
    var validMoves: seq<Pos>
    var captured: Captured
    var gameStatus: GameStatus
    var promotionSquare: Option<PromotionSquare>
    var moveHistory: seq<Move>

    function State(): GameState
      reads this
    {
      GameState(board, turn, selectedPiece, validMoves, captured, gameStatus, promotionSquare, moveHistory)
    }

    ghost predicate Valid()
      reads this
    {
      ValidState(State())
    }

    /** `create(...)` with the initial values. */
    constructor()
      ensures Valid() && State() == InitialState()
    {
      board := InitialBoard();
      turn := White;
      selectedPiece := None;
      validMoves := [];
      captured := Captured([], []);
      gameStatus := Playing;
      promotionSquare := None;
      moveHistory := [];
      InitialStateValid();
    }

    /** `newGame`: back to the initial values. */
    method NewGame()
      modifies this
      ensures Valid() && State() == InitialState()
    {
      var newBoard := InitializeBoard();
      Set(GameState(newBoard, White, None, [], Captured([], []), Playing, None, []));
      InitialStateValid();
    }

    /** `selectPiece(pos)`: deselect, select a piece of the side to move, or try to move there. */
    method SelectPiece(pos: Pos)
      requires Valid() && OnBoard(pos)
      modifies this
      ensures Valid() && State() == SelectSpec(old(State()), pos)
    {
      var s := State();
      if s.gameStatus != Playing {
        return;
      }
      var piece := s.board[pos.row][pos.col];
      if s.selectedPiece.Some? && s.selectedPiece.value.row == pos.row && s.selectedPiece.value.col == pos.col {
        Set(s.(selectedPiece := None, validMoves := []));
        return;
      }
      if piece.Some? && piece.value.color == s.turn {
        var legalMoves := GetLegalMoves(s.board, pos, s.moveHistory);
        Set(s.(selectedPiece := Some(pos), validMoves := legalMoves));
      } else if s.selectedPiece.Some? {
        MovePiece(pos);
      }
    }

    /** zustand's `set`: installs new values of the fields. */
    method Set(s': GameState)
      modifies this
      ensures State() == s'
    {
      board, turn, selectedPiece, validMoves := s'.board, s'.turn, s'.selectedPiece, s'.validMoves;
      captured, gameStatus, promotionSquare, moveHistory := s'.captured, s'.gameStatus, s'.promotionSquare, s'.moveHistory;
    }

    /** `movePiece(to)`: make the selected piece's move, if `to` is one of its listed moves. */
    method MovePiece(to: Pos)
      requires Valid()
      modifies this
      ensures Valid() && State() == MoveSpec(old(State()), to)
    {
      var s := State();
      if s.selectedPiece.None? || to !in s.validMoves {
        return;
      }
      AcceptedApplies(s, to);
      MovePreservesValid(s, to);
      var from := s.selectedPiece.value;
      var piece := s.board[from.row][from.col].value;
      var newBoard, capturedPiece := MakeMove(s.board, from, to);
      var newTurn := if s.turn == White then Black else White;
      var newHistory := s.moveHistory + [Move(piece, from, to)];
      var newCaptured := if capturedPiece.Some? then s.captured.Add(s.turn, capturedPiece.value) else s.captured;
      if piece.kind == Pawn && (to.row == 0 || to.row == 7) {
        Set(s.(board := newBoard, gameStatus := Promotion, promotionSquare := Some(PromotionSquare(to, piece.id)),
          selectedPiece := None, validMoves := [], moveHistory := newHistory, captured := newCaptured));
        return;
      }
      var newGameStatus := ClassifyPosition(newBoard, newTurn, newHistory);
      Set(s.(board := newBoard, turn := newTurn, selectedPiece := None, validMoves := [],
        captured := newCaptured, gameStatus := newGameStatus, moveHistory := newHistory));
    }

    /** `promotePawn(kind)`: replace the promoted pawn and pass the turn. */
    method PromotePawn(kind: Kind)
      requires Valid()
      modifies this
      ensures Valid() && State() == PromoteSpec(old(State()), kind)
    {
      var s := State();
      if s.promotionSquare.None? {
        return;
      }
      PromotePreservesValid(s, kind);
      var ps := s.promotionSquare.value;
      var newBoard := Put(s.board, ps.pos, Some(Piece(ps.pawnId, kind, s.turn)));
      var newTurn := if s.turn == White then Black else White;
      var newGameStatus := ClassifyPosition(newBoard, newTurn, s.moveHistory);
      Set(s.(board := newBoard, turn := newTurn, gameStatus := newGameStatus, promotionSquare := None));
    }
  }
}
