/**
  The game-state hook of the front end: the board, the side to move, the square the user
  selected and its legal targets, the game status, the move history and the castling rights.
  The hook's state is a class whose methods update its fields; each method is proved against
  a pure transition on `GameState` values, and the lemmas below are about those transitions.
*/
module Game {
  import opened Wrappers
  import opened ChessTypes
  import opened Rules
  import opened RulesLemmas
  import Fen

  datatype Status = Playing | Checkmate | Stalemate

  /** Everything the hook keeps between renders. */
  datatype GameState = GameState(
    board: Board,
    turn: Color,
    selected: Option<Square>,
    legal: seq<Square>,
    status: Status,
    history: seq<Move>,
    rights: CastlingRights)

  const AllRights := CastlingRights(SideRights(true, true), SideRights(true, true))

  /** The state the hook starts in and `resetGame` returns to. */
  function Initial(): (s: GameState)
    ensures s.board == Fen.InitialBoard()
  {
    GameState(Fen.InitialBoard(), White, None, [], Playing, [], AllRights)
  }

  /**
    What the hook maintains: a selection is an on-board square holding a piece of the side to
    move, shown with exactly its legal targets; no selection shows no targets; "stalemate" is
    never entered; White is to move exactly when an even number of moves has been played.
  */
  predicate ValidState(s: GameState) {
    && s.status != Stalemate
    && (s.turn == White <==> |s.history| % 2 == 0)
    && (s.selected.None? ==> s.legal == [])
    && (s.selected.Some? ==> SelectionShown(s.board, s.turn, s.rights, s.selected.value, s.legal))
  }

  /** `sq` holds a piece of `turn` and `shown` is exactly its legal targets. */
  predicate SelectionShown(b: Board, turn: Color, rights: CastlingRights, sq: Square, shown: seq<Square>) {
    && OnBoard(sq) && PieceAt(b, sq).Some? && PieceAt(b, sq).value.color == turn
    && shown == LegalMoves(b, sq, Some(rights))
  }

  // ---------------------------------------------------------------- castling rights

  /** A rook leaving or taken on column 0 ends queen-side castling, on column 7 king-side castling. */
  function RookColumnCleared(side: SideRights, col: int): SideRights {
    var s1 := if col == 0 then side.(q := false) else side;
    if col == 7 then s1.(k := false) else s1
  }

  /** The castling rights after `m` is played on `b`. */
  function RightsAfter(rights: CastlingRights, b: Board, m: Move): CastlingRights
    requires OnBoard(m.from) && OnBoard(m.to)
  {
    var piece := b[m.from.row][m.from.col];
    var r1 :=
      if piece.Some? && piece.value.kind == King then
        WithRightsOf(rights, piece.value.color, SideRights(false, false))
      else if piece.Some? && piece.value.kind == Rook then
        WithRightsOf(rights, piece.value.color, RookColumnCleared(RightsOf(rights, piece.value.color), m.from.col))
      else rights;
    var target := b[m.to.row][m.to.col];
    if target.Some? && target.value.kind == Rook then
      WithRightsOf(r1, target.value.color, RookColumnCleared(RightsOf(r1, target.value.color), m.to.col))
    else r1
  }

  /** The castling-rights update of `executeMove`, on a copy of the previous rights. */
  method UpdatedRights(prev: CastlingRights, b: Board, move: Move) returns (next: CastlingRights)
    requires OnBoard(move.from) && OnBoard(move.to)
    ensures next == RightsAfter(prev, b, move)
  {
    next := prev;
    var piece := b[move.from.row][move.from.col];
    if piece.Some? && piece.value.kind == King {
      next := WithRightsOf(next, piece.value.color, SideRights(false, false));
    } else if piece.Some? && piece.value.kind == Rook {
      var side := RightsOf(next, piece.value.color);
      if move.from.col == 0 {
        side := side.(q := false);
      }
      if move.from.col == 7 {
        side := side.(k := false);
      }
      next := WithRightsOf(next, piece.value.color, side);
    }
    var targetPiece := b[move.to.row][move.to.col];
    if targetPiece.Some? && targetPiece.value.kind == Rook {
      var side := RightsOf(next, targetPiece.value.color);
      if move.to.col == 0 {
        side := side.(q := false);
      }
      if move.to.col == 7 {
        side := side.(k := false);
      }
      next := WithRightsOf(next, targetPiece.value.color, side);
    }
  }

  /**
    For each colour, king-side castling survives a move exactly when it was available, that
    colour's king did not move, and no rook of that colour left or was captured on column 7;
    queen-side castling likewise with column 0.
  */
  lemma RightsAfterSides(rights: CastlingRights, b: Board, m: Move, c: Color)
    requires OnBoard(m.from) && OnBoard(m.to)
    ensures var after := RightsOf(RightsAfter(rights, b, m), c);
      && (after.k <==>
            && RightsOf(rights, c).k
            && b[m.from.row][m.from.col] != Some(Piece(King, c))
            && !(b[m.from.row][m.from.col] == Some(Piece(Rook, c)) && m.from.col == 7)
            && !(b[m.to.row][m.to.col] == Some(Piece(Rook, c)) && m.to.col == 7))
      && (after.q <==>
            && RightsOf(rights, c).q
            && b[m.from.row][m.from.col] != Some(Piece(King, c))
            && !(b[m.from.row][m.from.col] == Some(Piece(Rook, c)) && m.from.col == 0)
            && !(b[m.to.row][m.to.col] == Some(Piece(Rook, c)) && m.to.col == 0))
  {
    var piece := b[m.from.row][m.from.col];
    var target := b[m.to.row][m.to.col];
    if piece.Some? && piece.value.kind == King {
      assert piece == Some(Piece(King, piece.value.color));
    } else if piece.Some? && piece.value.kind == Rook {
      assert piece == Some(Piece(Rook, piece.value.color));
    }
    if target.Some? && target.value.kind == Rook {
      assert target == Some(Piece(Rook, target.value.color));
    }
  }

  /** A lost castling right is never regained. */
  lemma RightsNeverRestored(rights: CastlingRights, b: Board, m: Move, c: Color)
    requires OnBoard(m.from) && OnBoard(m.to)
    ensures RightsOf(RightsAfter(rights, b, m), c).k ==> RightsOf(rights, c).k
    ensures RightsOf(RightsAfter(rights, b, m), c).q ==> RightsOf(rights, c).q
  {
    RightsAfterSides(rights, b, m, c);
  }

  // ---------------------------------------------------------------- transitions

  /**
    `executeMove`: play `m`, pass the turn, record the move, clear the selection, update the
    castling rights from the board before the move, and report checkmate of the side now to move.
  */
  function Execute(s: GameState, m: Move): (t: GameState)
    requires OnBoard(m.from) && OnBoard(m.to)
  {
    var nb := AfterMove(s.board, m);
    var next := Opponent(s.turn);
    GameState(nb, next, None, [], if Checkmated(nb, next) then Checkmate else s.status,
              s.history + [m], RightsAfter(s.rights, s.board, m))
  }

  predicate SelectionOnBoard(s: GameState) {
    s.selected.Some? ==> OnBoard(s.selected.value)
  }

  /** `handleSquareClick` on (row, col). */
  function Click(s: GameState, row: int, col: int): GameState
    requires 0 <= row < 8 && 0 <= col < 8
    requires SelectionOnBoard(s)
  {
    var sq := Square(row, col);
    var piece := s.board[row][col];
    var own := piece.Some? && piece.value.color == s.turn;
    if s.status != Playing then s
    else
      match s.selected
      case Some(from) =>
        if SameSquare(from, sq) then s.(selected := None, legal := [])
        else if sq in s.legal then Execute(s, CandidateMove(s.board, from, sq))
        else if own then s.(selected := Some(sq), legal := LegalMoves(s.board, sq, Some(s.rights)))
        else s.(selected := None, legal := [])
      case None =>
        if own then s.(selected := Some(sq), legal := LegalMoves(s.board, sq, Some(s.rights)))
        else s
  }

  // ---------------------------------------------------------------- properties of the transitions

  /** The starting state is well formed. */
  lemma InitialValid()
    ensures ValidState(Initial())
    ensures Initial().board == Fen.InitialBoard() && Initial().turn == White && Initial().status == Playing
  {
  }

  /**
    Playing a move keeps the state well formed (whatever was selected before), alternates the
    turn and extends the history by that move.
  */
  lemma ExecuteValid(s: GameState, m: Move)
    requires s.status != Stalemate && (s.turn == White <==> |s.history| % 2 == 0)
    requires OnBoard(m.from) && OnBoard(m.to)
    ensures ValidState(Execute(s, m))
    ensures Execute(s, m).turn != s.turn && Execute(s, m).history == s.history + [m]
    ensures Execute(s, m).selected == None
  {
    var t := Execute(s, m);
    assert t.status != Stalemate;
    assert |t.history| == |s.history| + 1;
    assert t.turn == White <==> |t.history| % 2 == 0 by {
      assert t.turn == White <==> s.turn == Black;
      Parity(|s.history|);
    }
    NothingSelectedValid(t);
  }

  lemma NothingSelectedValid(t: GameState)
    requires t.selected == None && t.legal == [] && t.status != Stalemate
    requires t.turn == White <==> |t.history| % 2 == 0
    ensures ValidState(t)
  {
  }

  lemma Parity(n: nat)
    ensures (n + 1) % 2 == 0 <==> n % 2 != 0
  {
  }

  /** A click keeps the state well formed. */
  lemma ClickValid(s: GameState, row: int, col: int)
    requires 0 <= row < 8 && 0 <= col < 8
    requires ValidState(s)
    ensures ValidState(Click(s, row, col))
  {
    if s.status == Playing && s.selected.Some? {
      var from := s.selected.value;
      var sq := Square(row, col);
      if !SameSquare(from, sq) && sq in s.legal {
        LegalTargetOnBoard(s.board, from, s.rights, sq);
        ExecuteValid(s, CandidateMove(s.board, from, sq));
      }
    }
  }

  /** A square in a piece's legal targets is on the board. */
  lemma LegalTargetOnBoard(b: Board, from: Square, rights: CastlingRights, t: Square)
    requires t in LegalMoves(b, from, Some(rights))
    ensures OnBoard(t) && PieceAt(b, from).Some?
  {
    LegalMovesFilter(b, from, Some(rights));
  }

  /**
    What a click on `sq` does while the game is on: clicking the selected square deselects it;
    clicking one of its legal targets plays the move there; clicking another own piece selects
    that piece with its legal targets; any other click clears the selection (or, with nothing
    selected, changes nothing). Once the game is over a click changes nothing.
  */
  lemma ClickOutcomes(s: GameState, row: int, col: int)
    requires 0 <= row < 8 && 0 <= col < 8
    requires ValidState(s)
    ensures s.status != Playing ==> Click(s, row, col) == s
    ensures s.status == Playing && s.selected == Some(Square(row, col)) ==>
      Click(s, row, col) == s.(selected := None, legal := [])
    ensures s.status == Playing && s.selected.Some? && Square(row, col) in s.legal ==>
      Click(s, row, col) == Execute(s, CandidateMove(s.board, s.selected.value, Square(row, col)))
    ensures s.status == Playing && s.selected != Some(Square(row, col))
            && s.board[row][col].Some? && s.board[row][col].value.color == s.turn ==>
      Click(s, row, col) == s.(selected := Some(Square(row, col)),
                               legal := LegalMoves(s.board, Square(row, col), Some(s.rights)))
    ensures s.status == Playing && s.selected.Some? && s.selected != Some(Square(row, col))
            && Square(row, col) !in s.legal
            && !(s.board[row][col].Some? && s.board[row][col].value.color == s.turn) ==>
      Click(s, row, col) == s.(selected := None, legal := [])
    ensures s.status == Playing && s.selected.None?
            && !(s.board[row][col].Some? && s.board[row][col].value.color == s.turn) ==>
      Click(s, row, col) == s
  {
    if s.status == Playing && s.selected.Some? {
      var from := s.selected.value;
      var sq := Square(row, col);
      // A legal target never holds a piece of the side to move, and the selected square does.
      LegalTargetsEnterable(s.board, from, Some(s.rights));
      if sq in s.legal {
        assert Enterable(s.board, sq, s.turn);
        assert sq != from;
      }
    }
  }

  /**
    A move made by clicking is a legal move of the side to move: its piece belongs to that side,
    its target is a legal target of the selected square, and it does not leave that side's king
    attacked.
  */
  lemma ClickMoveIsLegal(s: GameState, row: int, col: int)
    requires 0 <= row < 8 && 0 <= col < 8
    requires ValidState(s)
    requires |Click(s, row, col).history| != |s.history|
    ensures s.selected.Some?
    ensures var from := s.selected.value;
      && PieceAt(s.board, from).Some? && PieceAt(s.board, from).value.color == s.turn
      && Square(row, col) in LegalMoves(s.board, from, Some(s.rights))
      && Click(s, row, col).history == s.history + [CandidateMove(s.board, from, Square(row, col))]
      && !InCheck(Click(s, row, col).board, s.turn)
  {
    var from := s.selected.value;
    var sq := Square(row, col);
    LegalMovesFilter(s.board, from, Some(s.rights));
    assert sq in PseudoLegal(s.board, from, Some(s.rights)) && OnBoard(sq);
  }

  /** Checkmate is final: neither a click nor a move changes it. */
  lemma CheckmateSticks(s: GameState, row: int, col: int, m: Move)
    requires 0 <= row < 8 && 0 <= col < 8
    requires SelectionOnBoard(s) && OnBoard(m.from) && OnBoard(m.to)
    requires s.status == Checkmate
    ensures Click(s, row, col) == s
    ensures Execute(s, m).status == Checkmate
  {
  }

  /** Castling rights only ever shrink during a game of clicks. */
  lemma ClickRightsShrink(s: GameState, row: int, col: int, c: Color)
    requires 0 <= row < 8 && 0 <= col < 8
    requires ValidState(s)
    ensures RightsOf(Click(s, row, col).rights, c).k ==> RightsOf(s.rights, c).k
    ensures RightsOf(Click(s, row, col).rights, c).q ==> RightsOf(s.rights, c).q
  {
    if s.status == Playing && s.selected.Some? {
      var from := s.selected.value;
      var sq := Square(row, col);
      if !SameSquare(from, sq) && sq in s.legal {
        LegalTargetOnBoard(s.board, from, s.rights, sq);
        RightsNeverRestored(s.rights, s.board, CandidateMove(s.board, from, sq), c);
      }
    }
  }

  // ---------------------------------------------------------------- the hook

  class ChessGame {
    var board: Board
    var turn: Color
    var selectedSquare: Option<Square>
    var legalMoves: seq<Square>
    var gameStatus: Status
    var history: seq<Move>
    var castlingRights: CastlingRights

    function State(): GameState
      reads this
    {
      GameState(board, turn, selectedSquare, legalMoves, gameStatus, history, castlingRights)
    }

    predicate Valid()
      reads this
    {
      ValidState(State())
    }

    /** The hook's initial state: the starting position, White to move, nothing selected, all castling rights. */
    constructor ()
      ensures State() == Initial()
      ensures Valid()
    {
      var init := Initial();
      InitialValid();
      board := init.board;
      turn := init.turn;
      selectedSquare := init.selected;
      legalMoves := init.legal;
      gameStatus := init.status;
      history := init.history;
      castlingRights := init.rights;
    }

    /** `executeMove`. */
    method ExecuteMove(move: Move)
      requires Valid() && OnBoard(move.from) && OnBoard(move.to)
      modifies this
      ensures State() == Execute(old(State()), move)
      ensures Valid()
    {
      ExecuteValid(State(), move);
      var newBoard := MakeMove(board, move);
      var nextTurn := Opponent(turn);
      var mate := IsCheckmate(newBoard, nextTurn);
      if mate {
        gameStatus := Checkmate;
      }
      castlingRights := UpdatedRights(castlingRights, board, move);
      board := newBoard;
      turn := nextTurn;
      history := history + [move];
      selectedSquare := None;
      legalMoves := [];
    }

    /** `handleSquareClick`. */
    method HandleSquareClick(row: int, col: int)
      requires Valid() && 0 <= row < 8 && 0 <= col < 8
      modifies this
      ensures State() == Click(old(State()), row, col)
      ensures Valid()
    {
      ClickValid(State(), row, col);
      if gameStatus != Playing {
        return;
      }
      var clickedSquare := Square(row, col);
      var piece := board[row][col];
      if selectedSquare.Some? {
        var from := selectedSquare.value;
        if SameSquare(from, clickedSquare) {
          selectedSquare := None;
          legalMoves := [];
          return;
        }
        if clickedSquare in legalMoves {
          var selectedPiece := PieceAt(board, from);
          var isCastling := selectedPiece.Some? && selectedPiece.value.kind == King && Abs(clickedSquare.col - from.col) > 1;
          var move := Move(from, clickedSquare, None, isCastling);
          ExecuteMove(move);
          return;
        }
        if piece.Some? && piece.value.color == turn {
          selectedSquare := Some(clickedSquare);
          legalMoves := GetLegalMoves(board, clickedSquare, Some(castlingRights));
          return;
        }
        selectedSquare := None;
        legalMoves := [];
      } else {
        if piece.Some? && piece.value.color == turn {
          selectedSquare := Some(clickedSquare);
          legalMoves := GetLegalMoves(board, clickedSquare, Some(castlingRights));
        }
      }
    }

    /** `resetGame`: back to the initial state. */
    method ResetGame()
      modifies this
      ensures State() == Initial()
      ensures Valid()
    {
      var init := Initial();
      board := init.board;
      turn := init.turn;
      selectedSquare := init.selected;
      legalMoves := init.legal;
      gameStatus := init.status;
      history := init.history;
      castlingRights := init.rights;
      NothingSelectedValid(State());
    }
  }
}
