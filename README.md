# Chess rules engine of the Spell-Chess front end, in Dafny

This project models the browser-side chess core of the Spell-Chess front end:

- the move generator and check detection (`rules.ts`);
- the board codec (`board.ts`):
  - FEN placement text to board and back;
  - UCI move tokens;
  - the starting position;
- the game-state hook (`useChessGame.ts`). It keeps the board, the side to move, the selected square and its legal targets, the game status, the move history and the castling rights.

The board is an 8x8 grid. Row 0 is Black's back rank and row 7 is White's. A square is a (row, col) pair that may lie off the board; the generators build such squares before they test them.

The model has two layers.

- **Specification layer.** Pure functions say what each operation computes:
  - `Rules.PseudoLegal`, `Rules.LegalMoves`, `Rules.AfterMove`, `Rules.InCheck` and `Rules.Checkmated`;
  - `Fen.DecodeFen`, `Fen.EncodeFen` and `Fen.UciToMove`;
  - `Game.Execute` and `Game.Click`.
- **Implementation layer.** The source's loops become methods:
  - the nested board scans;
  - the ray walk of the sliding pieces;
  - the offset loops;
  - the FEN reader and writer, working on a mutable 8x8 array.

  Each method is proved equal to its specification function. The hook is a class whose fields are the hook's state. Its methods are proved to perform the `Game` transitions and to keep the selection invariant `Game.ValidState`.

Module layout:

- `types.dfy`:
  - `Wrappers` (Option, Result);
  - `ChessTypes` (the records of `types.ts`);
  - `Grid` (cell update, and the array copy of a board that `makeMove` and `fenToBoard` mutate).
- `rules.dfy`: `Rules`, with the specification functions and the methods.
- `rules_lemmas.dfy`: `RulesLemmas`, with the properties of the move generator.
- `fen.dfy`: `Fen`, with the codec functions and methods.
- `fen_lemmas.dfy`: `FenLemmas`, with the round trip, the UCI facts and the starting position.
- `game.dfy`: `Game`, with the hook.

The mutual recursion is `getPseudoLegalMoves` → `getKingMoves` → castling → `isSquareAttacked` → `getPseudoLegalMoves` without castling rights. It terminates because the recursive call drops the castling rights. The model measures this with `Rules.Level`.

## Model

| member | source | states |
|---|---|---|
| `Rules.OnBoardCells` | frontend/src/lib/chess/rules.ts:3-5 | `isSquareOnBoard` holds exactly when `board[row][col]` names one of the 64 cells of the board |
| `Rules.SameSquare` | frontend/src/lib/chess/rules.ts:7-9 | two squares are the same exactly when they are equal as values |
| `Rules.PieceAt` | frontend/src/lib/chess/rules.ts:11-14 | an off-board square holds nothing; an on-board square gives the board's cell |
| `Rules.IsSquareAttacked` | frontend/src/lib/chess/rules.ts:16-30 | the row-major scan returns true exactly when some attacker piece has `sq` among its castling-free pseudo-legal targets (`Attacked`) |
| `Rules.GetSlidingMoves` | frontend/src/lib/chess/rules.ts:32-56 | the ray walk returns `SlidingMoves`; shape in `RulesLemmas.SlidingShape` |
| `Rules.GetKnightMoves` | frontend/src/lib/chess/rules.ts:58-78 | the offset loop returns the eight knight hops that stay on the board and do not land on a friendly piece (`KnightMoves`) |
| `Rules.GetKingMoves` | frontend/src/lib/chess/rules.ts:80-136 | the offset loop plus the castling block returns `KingMoves`; characterised by `RulesLemmas.KingTargets` |
| `Rules.GetPawnMoves` | frontend/src/lib/chess/rules.ts:138-170 | pushes and diagonal captures in source order (`PawnMoves`); characterised by `RulesLemmas.PawnTargets` |
| `Rules.GetPseudoLegalMoves` | frontend/src/lib/chess/rules.ts:172-204 | dispatches on the piece type and returns `PseudoLegal`; an empty square gives no moves |
| `Rules.GetBishopMoves` | frontend/src/lib/chess/rules.ts:179-184 | the four diagonal rays, in source order |
| `Rules.GetRookMoves` | frontend/src/lib/chess/rules.ts:185-190 | the four orthogonal rays, in source order |
| `Rules.MakeMove` | frontend/src/lib/chess/rules.ts:206-234 | the copy-and-mutate result equals `AfterMove`; cell-level meaning in `RulesLemmas.AfterMoveCells` |
| `Rules.FindKing` | frontend/src/lib/chess/rules.ts:236-246 | the scan returns `FirstKing`: the first king of that colour in row-major order, or none (`RulesLemmas.FirstKingSpec`) |
| `Rules.IsCheck` | frontend/src/lib/chess/rules.ts:248-267 | false without a king; otherwise true exactly when the opponent attacks the king's square (`InCheck`) |
| `Rules.GetLegalMoves` | frontend/src/lib/chess/rules.ts:269-286 | the filter loop returns `LegalMoves`: the pseudo-legal targets whose move leaves the mover out of check |
| `Rules.IsCheckmate` | frontend/src/lib/chess/rules.ts:288-302 | true exactly when the side is in check and none of its pieces has a castling-free legal move (`Checkmated`) |
| `Rules.HopsTargets` | frontend/src/lib/chess/rules.ts:68-76 | every hop target is on the board and free of own pieces; with `captureOnly`, it holds an enemy piece |
| `Rules.RayTargets` | frontend/src/lib/chess/rules.ts:40-54 | every square of a ray is on the board and free of own pieces |
| `Rules.SlidingTargets` | frontend/src/lib/chess/rules.ts:32-56 | every sliding target of a piece is enterable by that piece's colour |
| `Rules.CastlesTargets` | frontend/src/lib/chess/rules.ts:101-133 | every castling target is an empty on-board square |
| `Rules.PseudoLegalTargets` | frontend/src/lib/chess/rules.ts:172-204 | an empty start has no moves; every pseudo-legal target is on the board and not occupied by the mover's colour |
| `RulesLemmas.HopsMembership` | frontend/src/lib/chess/rules.ts:68-76 | a square is a hop target iff it is the start shifted by one of the first `n` offsets and it is enterable (capturable when capture-only) |
| `RulesLemmas.KnightTargets` | frontend/src/lib/chess/rules.ts:58-78 | `t` is a knight move iff it is one of the eight knight offsets from the start and enterable |
| `RulesLemmas.RaySquares` | frontend/src/lib/chess/rules.ts:37-53 | the k-th ray square is k+1 steps from the start in the ray's direction |
| `RulesLemmas.RayStops` | frontend/src/lib/chess/rules.ts:44-50 | all ray squares but the last are empty, and the last is enterable |
| `RulesLemmas.RayEnds` | frontend/src/lib/chess/rules.ts:40-51 | a ray that ends on an empty square (or is empty) stops because the next square is off the board or holds an own piece |
| `RulesLemmas.SlidingShape` | frontend/src/lib/chess/rules.ts:32-56 | sliding moves are the consecutive squares of the direction, all empty but possibly the last (a capture), up to a block or the edge |
| `RulesLemmas.PawnTargets` | frontend/src/lib/chess/rules.ts:138-170 | `t` is a pawn move iff it is the empty square ahead, the empty square two ahead from the start row with the square between empty, or a diagonal square ahead holding an enemy piece |
| `RulesLemmas.CastlingTargets` | frontend/src/lib/chess/rules.ts:101-133 | g-file castling is offered iff the right is set, f and g are empty and e, f, g are not attacked; c-file castling iff the right is set, b, c, d are empty and e, d, c are not attacked |
| `RulesLemmas.KingTargets` | frontend/src/lib/chess/rules.ts:80-136 | `t` is a king move iff it is an enterable neighbour, or castling rights were passed and `t` is a castling target |
| `RulesLemmas.AfterMoveCells` | frontend/src/lib/chess/rules.ts:206-234 | after a move the origin is empty, the destination holds the piece (a pawn reaching the last rank becomes the promotion piece, queen by default), a castling rook moves h→f or a→d, and every other cell is unchanged |
| `RulesLemmas.SafeTargetsOrder` | frontend/src/lib/chess/rules.ts:276-283 | the filter keeps a subsequence of the targets, in their order |
| `RulesLemmas.SafeTargetsMember` | frontend/src/lib/chess/rules.ts:276-283 | a target is kept iff it was offered and the move to it leaves the mover out of check |
| `RulesLemmas.LegalMovesFilter` | frontend/src/lib/chess/rules.ts:269-286 | legal moves are an order-preserving subsequence of the pseudo-legal ones, and `t` is legal iff the start holds a piece, `t` is pseudo-legal and on the board, and the move does not leave that piece's side in check |
| `RulesLemmas.LegalTargetsEnterable` | frontend/src/lib/chess/rules.ts:269-286 | every legal target is on the board and not occupied by the mover's colour |
| `RulesLemmas.KingFromSpec` | frontend/src/lib/chess/rules.ts:237-245 | scanning from (r, c) finds a king of the colour at or after (r, c) with none between, or reports none iff there is none from (r, c) on |
| `RulesLemmas.FirstKingSpec` | frontend/src/lib/chess/rules.ts:236-246 | `findKing` returns the first king of the colour in row-major order, and returns null iff the colour has no king |
| `RulesLemmas.CheckSpec` | frontend/src/lib/chess/rules.ts:248-267 | without a king there is no check; otherwise check iff some opponent piece has the king's square among its castling-free pseudo-legal targets |
| `RulesLemmas.CheckmateSpec` | frontend/src/lib/chess/rules.ts:288-302 | a checkmated side is in check, and every pseudo-legal on-board move of each of its pieces leaves it in check |
| `Fen.EmptyBoard` | frontend/src/lib/chess/board.ts:5-7 | every cell of the new board is empty |
| `Fen.PieceTypeFromChar` | frontend/src/lib/chess/board.ts:9-19 | a type is found iff the lower-cased character is one of p n b r q k, and its letter is that character; otherwise the error path |
| `Fen.ColorFromChar` | frontend/src/lib/chess/board.ts:37 | a piece letter is black iff it is lower case |
| `Fen.Split` | frontend/src/lib/chess/board.ts:28-29 | `split` gives at least one part and no part contains the separator; `FenLemmas.SplitJoin` gives the inverse |
| `Fen.FenToBoard` | frontend/src/lib/chess/board.ts:26-46 | the nested loop over ranks and characters, writing into a fresh empty grid, returns `DecodeFen` |
| `Fen.BoardToFen` | frontend/src/lib/chess/board.ts:48-73 | the run-length loop returns `EncodeFen`: the placement field, then turn, castling, en-passant, half-move and full-move fields (defaults `w - - 0 1`) |
| `Fen.CharFromPiece` | frontend/src/lib/chess/board.ts:21-24 | the letter of a piece is an ASCII capital exactly when the piece is white |
| `Fen.UciToMove` | frontend/src/lib/chess/board.ts:75-88 | parsing succeeds iff the token has at least four characters, both rank characters are digits and any fifth character is a piece letter; a parsed move never castles |
| `Fen.InitialBoard` | frontend/src/lib/chess/board.ts:90 | `initialBoard`: Black's back rank and pawns on rows 0 and 1, White's on rows 7 and 6, rows 2 to 5 empty |
| `FenLemmas.PieceLetters` | frontend/src/lib/chess/board.ts:9-19 | exactly the twelve piece letters (and the Kelvin sign, which lower-cases to k) name a piece type |
| `FenLemmas.CharRoundTrip` | frontend/src/lib/chess/board.ts:21-24 | a piece's letter is upper case iff the piece is white, reads back as the same piece, and is never a digit, '/' or ' ' |
| `FenLemmas.LetterRoundTrip` | frontend/src/lib/chess/board.ts:21-24 | every ASCII piece letter is the letter of the piece it decodes to |
| `FenLemmas.SplitJoin` | frontend/src/lib/chess/board.ts:28-29 | joining the parts of a split with the separator gives the text back |
| `FenLemmas.JoinSplit` | frontend/src/lib/chess/board.ts:28-29 | splitting a join of separator-free parts gives the parts back |
| `FenLemmas.PlacementShape` | frontend/src/lib/chess/board.ts:49-70 | the placement field is eight rank groups joined by '/', each accounting for exactly 8 columns with single-digit runs, and has no space |
| `FenLemmas.DecodeRankText` | frontend/src/lib/chess/board.ts:31-43 | reading a rank text written by `boardToFen` fills exactly that rank with the encoded cells |
| `FenLemmas.RoundTrip` | frontend/src/lib/chess/board.ts:26-73 | `fenToBoard(boardToFen(b, ...)) == b` for every board and every trailing field |
| `FenLemmas.DefaultTrailer` | frontend/src/lib/chess/board.ts:48 | the default trailing fields are `w - - 0 1` |
| `FenLemmas.UciFields` | frontend/src/lib/chess/board.ts:75-88 | a bad fifth character is reported first; the coordinates are NaN iff the token is shorter than 4 or a rank is not a digit; otherwise the rows are 8 minus the rank digits, the columns the file offsets from 'a', and a promotion is present iff the token is longer than 4 |
| `FenLemmas.UciRoundTrip` | frontend/src/lib/chess/board.ts:75-88 | parsing the UCI text of an on-board, non-castling move gives the move back |
| `FenLemmas.StartingFenEncodes` | frontend/src/lib/chess/board.ts:3 | the standard starting position, written with white to move and all castling rights, is exactly `STARTING_FEN` |
| `FenLemmas.InitialBoardDecodes` | frontend/src/lib/chess/board.ts:90 | decoding `STARTING_FEN` succeeds and gives `initialBoard`, the standard starting position |
| `Game.UpdatedRights` | frontend/src/hooks/useChessGame.ts:32-51 | the copy-and-clear update of the castling rights returns `RightsAfter` |
| `Game.RightsAfterSides` | frontend/src/hooks/useChessGame.ts:32-51 | a colour keeps king-side castling iff it had it, its king did not move, and none of its rooks left or was captured on column 7; queen-side likewise with column 0 |
| `Game.RightsNeverRestored` | frontend/src/hooks/useChessGame.ts:32-51 | a castling right that is off stays off after any move |
| `Game.InitialValid` | frontend/src/hooks/useChessGame.ts:7-16 | the initial state is the starting position, White to move, playing, with nothing selected, and satisfies the hook invariant |
| `Game.ExecuteValid` | frontend/src/hooks/useChessGame.ts:18-57 | a move keeps the invariant, passes the turn, appends the move to the history and clears the selection |
| `Game.ClickValid` | frontend/src/hooks/useChessGame.ts:59-100 | a click keeps the invariant: a selection is always an own piece shown with exactly its legal targets |
| `Game.ClickOutcomes` | frontend/src/hooks/useChessGame.ts:59-100 | once the game is over a click changes nothing; otherwise clicking the selected square deselects it, clicking one of its legal targets plays the move there, clicking another own piece selects it with its legal targets, and any other click clears the selection (with nothing selected, changes nothing) |
| `Game.ClickMoveIsLegal` | frontend/src/hooks/useChessGame.ts:74-81 | a move made by clicking belongs to the side to move, goes to a legal target, is recorded in the history, and does not leave that side in check |
| `Game.CheckmateSticks` | frontend/src/hooks/useChessGame.ts:22-26 | after checkmate, clicks change nothing and further moves keep the status |
| `Game.ClickRightsShrink` | frontend/src/hooks/useChessGame.ts:59-100 | clicks never restore a castling right |
| `Game.ChessGame.constructor` | frontend/src/hooks/useChessGame.ts:7-16 | the hook starts in `Initial()` and satisfies its invariant |
| `Game.ChessGame.ExecuteMove` | frontend/src/hooks/useChessGame.ts:18-57 | the fields become `Execute(old state, move)`: new board, other side to move, move appended, selection cleared, rights updated from the board before the move, and "checkmate" when the side now to move is checkmated |
| `Game.ChessGame.HandleSquareClick` | frontend/src/hooks/useChessGame.ts:59-100 | the fields become `Click(old state, row, col)`, and the invariant is kept |
| `Game.ChessGame.ResetGame` | frontend/src/hooks/useChessGame.ts:102-110 | the fields return to `Initial()`, and the invariant holds |

## Left out

- The React components are not modelled: `ChessBoard`, `Tile`, `Piece`, `EvaluationBar` and the page. `EvaluationBar` works on floating-point scores.
- `GameController.tsx` is not modelled. This covers the engine request loop, the timers and `fetch`. Spells appear nowhere in the game logic: the board view only displays an optional map of frozen pieces. Neither is the API route `route.ts` and its depth cap. They are I/O and concurrency around the core. `Game.ChessGame.ExecuteMove` is the entry point the controller calls with engine moves.
- React's state mechanics are sequentialised. The hook's setters and the closure over `board` and `turn` become one method call that reads the old field values and writes the new ones.
- En passant, the fifty-move rule, repetition and underpromotion through clicks are absent from the source. The model has none of them either.
- Stalemate: the status type has a "stalemate" value that the hook never assigns. `Game.ValidState` records that it is never entered.
- `Rules.IsCheck` calls `IsSquareAttacked` on the king's square. `isCheck` repeats the same attack loop inline at rules.ts lines 255-266, and the two loops compute the same thing.
- `Fen.FenToBoard`: a piece whose column index reaches 8 or more is written past the end of the JavaScript row. That makes the row longer. No rules function and not `boardToFen` reads the extra slot, but the board view would draw it as another tile and `makeMove`'s row copy carries it along. The model drops the piece; `fenToBoard` is only ever applied to `STARTING_FEN` (board.ts line 90), which has no such piece. A piece letter on a ninth or later rank makes the source throw on writing into the missing row. The model returns `Err(RankOutOfRange)` instead. A ninth rank of digits only, or the empty rank after a trailing '/', writes nothing, in the source and in the model alike.
- `Fen.UciToMove` returns an error where the source carries on:
  - The source does not check its input. A token shorter than four characters, or a rank that is not a digit, gives NaN coordinates. The model returns `Err(NotANumber)`.
  - An invalid promotion letter makes the source throw. The model returns `Err(InvalidPieceChar)`. This check comes first, as the source evaluates it before building the move.
- `Fen.PieceTypeFromChar`: `toLowerCase` is modelled for ASCII and for the Kelvin sign U+212A, the only other character whose lower case is one of `pnbrqk`. Other Unicode case mappings are not modelled.
- Strings are sequences of characters. JavaScript's UTF-16 code-unit indexing and `for...of` code-point iteration agree with it on the piece, digit and separator characters the codec uses.
- Numbers are unbounded integers. Board coordinates are small integers: the move generators step at most two squares past the edge (the knight's hops), `uciToMove` gives a column that is a character code minus 'a' and a row between -1 and 8, and `fenToBoard`'s column is at most 9 times the length of the rank text, since one digit can skip up to 9 columns. All of them are far below 2^53, where JavaScript numbers stop being exact integers, so no JavaScript number behaviour is lost on coordinates.
- `Fen.BoardToFen` takes the half-move and full-move counters as unbounded integers and always writes them in full decimal, with a leading '-' when negative. That matches JavaScript's template conversion only for integers of magnitude below 10^21; larger ones are written in exponent form (such as `1e+21`) by the source, and integers above 2^53 are not held exactly. The exponent form and the rounding are not modelled. The game passes only the defaults 0 and 1.
- `Game.ChessGame.ExecuteMove` requires both squares of the move to be on the board. For an off-board row the source's `board[row][col]` throws. For an off-board column on an on-board row it does not throw: a UCI token such as `i2i4` gives column 8. The source then reads `undefined` (useChessGame.ts line 34, rules.ts line 208) and writes a slot past the row's end (rules.ts lines 209-210). The model does not capture that behaviour.
- `Game.ChessGame.HandleSquareClick` requires the clicked square to be on the board. The board UI only produces such clicks.
- `Game.ChessGame.ExecuteMove` also requires the hook invariant, which every constructor and method establishes.
- The game controller passes the castling-rights object where `boardToFen` expects the castling field's text. The JavaScript string conversion of that object is not modelled: `Fen.BoardToFen` takes the field as text.
- The engine's UCI moves reach `executeMove` without an `isCastling` flag. `Fen.UciToMove` models that: its moves never castle, so an engine castling move moves only the king.
- `RulesLemmas.AfterMoveCells` is stated only for moves whose origin differs from the destination and from the castling rook's two squares. For other moves the source's successive writes overwrite each other. `Rules.MakeMove` is still proved equal to `Rules.AfterMove` for every on-board move.
