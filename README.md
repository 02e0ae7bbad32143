# Chess game: rules engine and game store

This project models the core of a browser chess game in Dafny. The core has two parts.

- **The rules engine** (`src/lib/chess-logic.ts`):
  - `initializeBoard` sets up the starting position.
  - `getValidMoves` is the pseudo-legal move generator. Its helpers are `addMove`, `addCaptureMove`, `addPawnMove` and `checkLine`.
  - `isSquareAttacked` is the attack oracle. It calls the generator with castling switched off, and the generator's castling rule calls the oracle back.
  - `isKingInCheck` finds the king.
  - `getLegalMoves` filters the generator's moves. It plays each move on a copy of the board and keeps the move if the mover's king is not left in check.
  - `isCheckmate` and `isStalemate` scan the side's pieces.
- **The game store** (`src/stores/useGameStore.ts`): one state record and the actions that overwrite it.
  - `newGame` restores the initial values.
  - `selectPiece` deselects, selects a piece and lists its legal moves, or tries a move.
  - `movePiece` moves the selected piece. It handles en passant, castling and promotion, records history and captures, and classifies the resulting position.
  - `promotePawn` puts the chosen piece on the promotion square and passes the turn.

Modules:

| file | module | contents |
|---|---|---|
| `wrappers.dfy` | `Wrappers` | `Option` |
| `board.dfy` | `ChessBoard` | colours, kinds, pieces, the 8x8 board as a value, `Put`, the initial position |
| `movegen.dfy` | `MoveGen` | the generator and the oracle (see below) |
| `legality.dfy` | `Legality` | king search, the simulated move, the legal filter, checkmate and stalemate |
| `movefacts.dfy` | `MoveFacts` | lemmas about what the generator and the oracle return |
| `legalfacts.dfy` | `LegalityFacts` | lemmas about the king search, the filter and the end-of-game tests |
| `gamestore.dfy` | `GameStore` | the state record, each action as a function of the state, lemmas about the actions, and the class `Game` |

In `MoveGen`, the generator and the oracle are mutually recursive functions. The flag `skipCastling` leads their termination measure.

Every loop-based function of the source is written twice:
- as a **function**, which the lemmas talk about;
- as a **method** that works step by step like the source. The method has the same loops, pushes onto the same list and keeps the same break conditions. Its `ensures` says it computes that function, so the generated lists keep the source's order.

The store is the class `GameStore.Game`. Its fields are the eight fields of the record. Each action reads the current state once, as the source does with `get()`. It computes the new values and installs them with one call to `Set`, as the source does with `set`. Each action's postcondition states that the new state is the matching function (`MoveSpec`, `SelectSpec`, `PromoteSpec`) applied to the old state, and that the invariant `ValidState` still holds.

Behaviour modelled as the code has it, where it departs from the rules of chess:

- `getLegalMoves` tests an en passant capture on a board that still holds the captured pawn. `movePiece` removes that pawn. So the filter can accept an en passant capture that exposes the mover's king along the rank. It can also reject one that takes a pawn giving check. `AfterMoveVersusSimulate` states exactly how the two boards differ. `MoveKeepsKingSafe` is proved for every other kind of move.
- The oracle runs the generator with an empty history, so it never counts en passant as an attack.
- The rook-moved test for castling checks the row, the column and the kind of the moving piece, but not its colour.
- `promotePawn` accepts any kind, including king and pawn, and does not look at the game status. It only requires a pending promotion square.
- A promoting move does not pass the turn. `promotePawn` passes it.
- A sideways pawn move onto an empty square is treated as en passant by `movePiece`.

## Model

| member | source | states |
|---|---|---|
| ChessBoard.Opponent | src/lib/chess-logic.ts:146 | the opposing colour differs from the given one |
| ChessBoard.Put | src/lib/chess-logic.ts:155-156 | writing a square changes that square only and leaves an 8x8 board |
| ChessBoard.InitialBoard | src/lib/chess-logic.ts:9-21 | the starting position is an 8x8 board whose every square is the start square of its row and column |
| ChessBoard.EmptyBoard | src/lib/chess-logic.ts:10 | the board the setup starts from is 8x8 and empty |
| ChessBoard.InitializeBoard | src/lib/chess-logic.ts:9-21 | the two setup loops (pawns, then back rows) produce exactly the starting position |
| ChessBoard.BoardExt | src/lib/chess-logic.ts:5 | two 8x8 boards that agree on every square are equal |
| ChessBoard.RowCountNone | src/lib/chess-logic.ts:5 | a row with no piece of a colour counts zero pieces of it |
| ChessBoard.RowCountAll | src/lib/chess-logic.ts:5 | a row full of a colour counts all its squares |
| ChessBoard.InitialLayout | src/lib/chess-logic.ts:8-19 | rows 1 and 6 hold the pawns, rows 0 and 7 the pieces in the order rook, knight, bishop, queen, king, bishop, knight, rook, rows 2 to 5 are empty, the kings start on column 4 |
| ChessBoard.InitialCounts | src/lib/chess-logic.ts:12-19 | each side starts with sixteen pieces |
| ChessBoard.InitialIdsDistinct | src/lib/chess-logic.ts:13-18 | no two pieces of the starting position share an id |
| MoveGen.AddMove | src/lib/chess-logic.ts:41-48 | pushes the target exactly when it is on the board and empty or held by the opponent |
| MoveGen.AddCaptureMove | src/lib/chess-logic.ts:49-56 | pushes the target exactly when it is on the board and held by the opponent |
| MoveGen.AddPawnMove | src/lib/chess-logic.ts:57-63 | pushes the target exactly when it is on the board and empty |
| MoveGen.CheckLine | src/lib/chess-logic.ts:122-132 | pushes a landing square and continues only past an empty on-board square |
| MoveGen.RayStep | src/lib/chess-logic.ts:83 | one turn of a ray loop extends the pushed list by the next square of the ray and stops where the ray stops |
| MoveGen.Slide | src/lib/chess-logic.ts:83-92 | one ray loop pushes exactly the squares of that ray, in order |
| MoveGen.AddRookRays | src/lib/chess-logic.ts:82-87 | the four orthogonal loops push the four rook rays in the source's order |
| MoveGen.AddBishopRays | src/lib/chess-logic.ts:88-93 | the four diagonal loops push the four bishop rays in the source's order |
| MoveGen.StepAll | src/lib/chess-logic.ts:94-100 | the knight and king `forEach` push exactly the offsets that `addMove` accepts, in order |
| MoveGen.AddPawnAdvances | src/lib/chess-logic.ts:67-70 | a pawn advances one square if it is empty, and two from its start row if both squares are empty |
| MoveGen.AddEnPassant | src/lib/chess-logic.ts:73-80 | the en passant target is pushed exactly after a two-row pawn move that ended beside the pawn |
| MoveGen.AddPawnMoves | src/lib/chess-logic.ts:64-81 | the pawn branch pushes the advances, the two diagonal captures and the en passant target |
| MoveGen.QueensideCheck | src/lib/chess-logic.ts:105-107 | queenside castling is open exactly when its rook has not moved from column 0, a rook stands there, columns 1 to 3 are empty and columns 2 and 3 are not attacked |
| MoveGen.KingsideCheck | src/lib/chess-logic.ts:111-113 | kingside castling is open exactly when its rook has not moved from column 7, a rook stands there, columns 5 and 6 are empty and not attacked |
| MoveGen.AddCastleSides | src/lib/chess-logic.ts:105-116 | pushes the queenside target, then the kingside target, each exactly when that side is open |
| MoveGen.AddCastleMoves | src/lib/chess-logic.ts:101-118 | castling is tried only when the king has never moved and its square is not attacked |
| MoveGen.AddPieceMoves | src/lib/chess-logic.ts:64-100 | the branches for each kind push that kind's pseudo-legal moves |
| MoveGen.GetValidMoves | src/lib/chess-logic.ts:36-121 | the generator returns nothing for an empty square and otherwise the piece's moves plus castling for a king unless it is skipped |
| MoveGen.AttackerAt | src/lib/chess-logic.ts:25-30 | one square of the oracle's scan attacks the target exactly when it holds a piece of the attacking colour whose castling-free moves with empty history include the target |
| MoveGen.IsSquareAttacked | src/lib/chess-logic.ts:22-35 | the row-by-row scan with early return computes the oracle |
| MoveFacts.LinePushLands | src/lib/chess-logic.ts:122-132 | `checkLine` pushes a square exactly when the piece may land on it |
| MoveFacts.RayMember | src/lib/chess-logic.ts:83-92 | a square is on a ray exactly when it is some step of the ray, the piece may land on it, and every square before it is empty |
| MoveFacts.StepsMember | src/lib/chess-logic.ts:94-100 | a square is a knight or king step exactly when it is one of the offsets and the piece may land on it |
| MoveFacts.PawnMember | src/lib/chess-logic.ts:64-81 | a pawn move is a free single advance, a free double advance from the start row, a diagonal capture of an opposing piece, or the en passant target |
| MoveFacts.ValidMovesSkipCastling | src/lib/chess-logic.ts:27 | with castling skipped, a piece has only its kind's ordinary moves |
| MoveFacts.CastleMember | src/lib/chess-logic.ts:101-118 | a castling target is two columns left or right of the unmoved and unattacked king, with that side's conditions met |
| MoveFacts.CastleOnBoard | src/lib/chess-logic.ts:105-116 | a castling target is on the board in the king's row, two columns away |
| MoveFacts.CastleLands | src/lib/chess-logic.ts:106-114 | a king on column 4 castles onto an empty square |
| MoveFacts.RayTargets | src/lib/chess-logic.ts:122-124 | every square on a ray is on the board and not the start square |
| MoveFacts.OffsetsMove | src/lib/chess-logic.ts:95-99 | no knight or king offset is zero |
| MoveFacts.StepTargets | src/lib/chess-logic.ts:41-42 | every knight or king step is on the board and not the start square |
| MoveFacts.PieceMovesMember | src/lib/chess-logic.ts:64-100 | the moves of each kind are exactly its branch's moves; the queen has both the rook and the bishop rays |
| MoveFacts.RookTargets | src/lib/chess-logic.ts:82-87 | every rook-ray square is on the board and not the start square |
| MoveFacts.BishopTargets | src/lib/chess-logic.ts:88-93 | every bishop-ray square is on the board and not the start square |
| MoveFacts.PawnTargets | src/lib/chess-logic.ts:64-81 | for a history the game can produce, a pawn's move is on the board, a sideways one goes one row forward, and a two-row one ends on row 3 or 4 |
| MoveFacts.ValidMovesTargets | src/lib/chess-logic.ts:36-121 | for a history the game can produce, every generated move is on the board and leaves the start square, with the pawn facts above |
| MoveFacts.RayLands | src/lib/chess-logic.ts:126-130 | a ray never reaches a square of the mover's colour |
| MoveFacts.RookLands | src/lib/chess-logic.ts:82-87 | rook rays never reach a square of the mover's colour |
| MoveFacts.BishopLands | src/lib/chess-logic.ts:88-93 | bishop rays never reach a square of the mover's colour |
| MoveFacts.PieceMovesLand | src/lib/chess-logic.ts:41-100 | every move pushed through the helpers is on the board and not onto the mover's own piece; only the en passant push bypasses them |
| MoveFacts.EmptyHasNoMoves | src/lib/chess-logic.ts:37-38 | an empty square has no moves |
| MoveFacts.AttackerInRowIff | src/lib/chess-logic.ts:24-31 | the column loop finds an attacker exactly when some square from that column on attacks the target |
| MoveFacts.AttackerFromRowIff | src/lib/chess-logic.ts:23-33 | the row loop finds an attacker exactly when some square from that row on attacks the target |
| MoveFacts.AttackedIff | src/lib/chess-logic.ts:22-35 | a square is attacked exactly when some square of the board holds an attacker that reaches it |
| MoveFacts.NoPiecesNoAttack | src/lib/chess-logic.ts:26 | a colour with no pieces attacks nothing |
| Legality.ShiftRook | src/lib/chess-logic.ts:157-162 | bringing the rook along for castling keeps an 8x8 board |
| Legality.Simulate | src/lib/chess-logic.ts:154-162 | the board a candidate move is tested on is an 8x8 board |
| Legality.IsKingInCheck | src/lib/chess-logic.ts:133-148 | the scan with its two breaks, then the oracle, computes "the side's first king is attacked" |
| Legality.GetLegalMoves | src/lib/chess-logic.ts:149-165 | the filter returns the legal moves of the square |
| Legality.AnyLegalMove | src/lib/chess-logic.ts:168-177 | the scan over the side's pieces finds one with a legal move exactly when the side is not out of moves |
| Legality.IsCheckmate | src/lib/chess-logic.ts:166-179 | checkmate is check plus no legal move |
| Legality.IsStalemate | src/lib/chess-logic.ts:180-193 | stalemate is no check plus no legal move |
| LegalityFacts.FindKingInRowSpec | src/lib/chess-logic.ts:136-142 | the column loop finds the first king of the colour in its row, or none is there |
| LegalityFacts.FindKingFromSpec | src/lib/chess-logic.ts:135-144 | the row loop finds the first king in row-major order from its row, or none is there |
| LegalityFacts.FindKingSpec | src/lib/chess-logic.ts:134-145 | the search returns a king of the colour, the first in row-major order, and returns nothing exactly when the side has no king |
| LegalityFacts.NoKingNoCheck | src/lib/chess-logic.ts:145 | a side without a king is never in check |
| LegalityFacts.KingInCheckIff | src/lib/chess-logic.ts:133-148 | with one king, the side is in check exactly when some opposing piece reaches the king's square |
| LegalityFacts.SafeMovesMember | src/lib/chess-logic.ts:153-164 | the filter keeps a move exactly when the mover's king is not in check on the simulated board |
| LegalityFacts.SafeMovesAppend | src/lib/chess-logic.ts:153-164 | the filter distributes over concatenation |
| LegalityFacts.SafeMask | src/lib/chess-logic.ts:163 | one keep-or-drop decision per candidate move |
| LegalityFacts.SafeMovesKeep | src/lib/chess-logic.ts:153-164 | the filter keeps the moves whose decision is "safe", in their order |
| LegalityFacts.LegalMovesSubsequence | src/lib/chess-logic.ts:149-165 | the legal moves are a subsequence of the generated moves, namely those whose simulated board leaves the king safe |
| LegalityFacts.SafeMovesShorter | src/lib/chess-logic.ts:153 | the filter never lengthens the list |
| LegalityFacts.LegalMovesMember | src/lib/chess-logic.ts:149-165 | a square is a legal move exactly when it is a generated move of a piece and the simulated move leaves that piece's king out of check |
| LegalityFacts.LegalMovesTargets | src/lib/chess-logic.ts:149-165 | every legal move is on the board and leaves the start square, with the pawn facts of the generator |
| LegalityFacts.MovableInRowIff | src/lib/chess-logic.ts:169-176 | the column loop finds a piece with a legal move exactly when one stands from that column on |
| LegalityFacts.MovableFromRowIff | src/lib/chess-logic.ts:168-177 | the row loop finds a piece with a legal move exactly when one stands from that row on |
| LegalityFacts.NoLegalMovesIff | src/lib/chess-logic.ts:168-178 | a side is out of moves exactly when every piece of its colour has an empty list of legal moves |
| LegalityFacts.EndingsExclusive | src/lib/chess-logic.ts:166-193 | checkmate and stalemate never hold together, and one of them holds exactly when the side is out of moves |
| GameStore.Captured.Add | src/stores/useGameStore.ts:101 | recording a capture appends the piece to the capturing side's list and leaves the other list alone |
| GameStore.Classify | src/stores/useGameStore.ts:105-110 | the status after a move is never promotion; it is checkmate exactly on check with no legal move, stalemate exactly without check and without legal move, and playing exactly when a legal move exists |
| GameStore.ClassifyPosition | src/stores/useGameStore.ts:105-110 | the checkmate-then-stalemate cascade computes that status |
| GameStore.AfterMove | src/stores/useGameStore.ts:72-89 | the board after a move is an 8x8 board |
| GameStore.AcceptedApplies | src/stores/useGameStore.ts:67-71 | a move on display can be applied: the selected square holds a piece, the target and any en passant victim are on the board, and the extended history stays well formed |
| GameStore.MakeMove | src/stores/useGameStore.ts:72-89 | the step-by-step board work returns the board after the move and the captured piece |
| GameStore.InitialStateValid | src/stores/useGameStore.ts:30-38 | the initial state satisfies the store invariant, white moves first, the game is playing, and each side has sixteen pieces |
| GameStore.MovePreservesValid | src/stores/useGameStore.ts:65-120 | `movePiece` keeps the store invariant |
| GameStore.SelectPreservesValid | src/stores/useGameStore.ts:50-64 | `selectPiece` keeps the store invariant |
| GameStore.PromotePreservesValid | src/stores/useGameStore.ts:121-143 | `promotePawn` keeps the store invariant |
| GameStore.MoveRejected | src/stores/useGameStore.ts:66-69 | a target not on display, or any target while the game is not playing, changes nothing |
| GameStore.MoveAccepted | src/stores/useGameStore.ts:65-120 | an accepted move is a legal move of a piece of the side to move; it appends one history entry, clears the selection, adds at most one piece and only to the mover's captures, and passes the turn exactly when no pawn promotes |
| GameStore.AfterMoveVersusSimulate | src/stores/useGameStore.ts:72-89 | the board a move produces equals the board its legality was tested on, except that an en passant capture also removes the victim |
| GameStore.MoveKeepsKingSafe | src/stores/useGameStore.ts:65-120 | after an accepted move other than en passant, the mover's king is not in check |
| GameStore.AfterMoveSquares | src/stores/useGameStore.ts:81-82 | an ordinary move puts the piece on the target, empties the start and leaves every other square alone |
| GameStore.AfterCastleKingside | src/stores/useGameStore.ts:84-89 | kingside castling from column 4 puts the king on column 6 and the column-7 rook on column 5, and leaves every other square alone |
| GameStore.AfterCastleQueenside | src/stores/useGameStore.ts:84-89 | queenside castling from column 4 puts the king on column 2 and the column-0 rook on column 3, and leaves every other square alone |
| GameStore.AfterEnPassant | src/stores/useGameStore.ts:74-82 | en passant records the victim as captured and empties the start square and the victim's square |
| GameStore.PromoteEffects | src/stores/useGameStore.ts:121-143 | promotion puts the chosen kind of the promoting side, with the pawn's id, on the promotion square, passes the turn, ends the promotion and leaves everything else alone; without a pending promotion nothing changes |
| GameStore.PromotionRoundTrip | src/stores/useGameStore.ts:93-143 | a promoting move followed by `promotePawn` passes the turn once, leaves the promoted piece on the target and records one move |
| GameStore.SelectTwice | src/stores/useGameStore.ts:54-60 | selecting an own piece and selecting it again leaves nothing selected and the board and turn unchanged |
| GameStore.SelectIgnoredWhenNotPlaying | src/stores/useGameStore.ts:52 | while the game is over or a promotion is pending, a click changes nothing |
| GameStore.Game.constructor | src/stores/useGameStore.ts:30-38 | the store starts in the initial state, which is valid |
| GameStore.Game.NewGame | src/stores/useGameStore.ts:40-49 | `newGame` restores the initial state |
| GameStore.Game.SelectPiece | src/stores/useGameStore.ts:50-64 | the new state is `SelectSpec` of the old one and stays valid |
| GameStore.Game.Set | src/stores/useGameStore.ts:94-102 | installs the given values in the store's fields |
| GameStore.Game.MovePiece | src/stores/useGameStore.ts:65-120 | the new state is `MoveSpec` of the old one and stays valid |
| GameStore.Game.PromotePawn | src/stores/useGameStore.ts:121-143 | the new state is `PromoteSpec` of the old one and stays valid |

## Left out

- Rendering and input handling (`ChessComponents.tsx`, `HomePage.tsx`) are not part of this model, and neither is the zustand machinery beyond `get` and `set`.
- The deep copies made with `JSON.parse(JSON.stringify(...))` are modelled as value copies of the board, so the model does not capture aliasing between old and new boards.
- Piece ids such as `wp-3` or `bq-3` are modelled as `PieceId(colour, kind, index)`. The string format is not modelled.
- MoveGen.GetValidMoves: requires the start square to be on the board. The source reads `board[from.row]`, which throws for a row outside the board. No caller in the game passes such a square.
- GameStore.Game.SelectPiece: requires the clicked square to be on the board. Clicks come from the rendered 8x8 grid.
- ChessBoard.Put: ignores a write outside the board, where the source would extend or throw. `GameStore.AcceptedApplies` shows that no write in a game goes outside the board.
- MoveFacts.PawnTargets, MoveFacts.ValidMovesTargets and LegalityFacts.LegalMovesTargets assume a history the game can produce (`HistoryOk`), which `ValidState` keeps.
- GameStore.MoveKeepsKingSafe: excludes en passant captures. The legality filter tests them on a board that still holds the captured pawn, so the guarantee does not hold for them as written.
- GameStore.PromoteEffects: does not restrict the kind to queen, rook, bishop or knight, because `promotePawn` accepts any kind.
