/**
  Move generation, attack and check detection, and the move executor of the chess
  front end (`frontend/src/lib/chess/rules.ts`).

  Each operation appears twice: a function that states what it computes, and a method
  that computes it the way the source does (loops, early returns, a copied grid that is
  assigned in place), proved equal to the function.

  The source's `getPseudoLegalMoves -> getKingMoves -> isSquareAttacked -> getPseudoLegalMoves`
  recursion ends because the attack test asks for moves WITHOUT castling rights. Here the
  rights are an explicit `Option<CastlingRights>` and `Level(rights)` is the measure.
*/
module Rules {
  import opened Wrappers
  import opened ChessTypes
  import opened Grid

  // ---------------------------------------------------------------- squares

  /** `isSquareOnBoard`. */
  predicate OnBoard(sq: Square) {
    0 <= sq.row < 8 && 0 <= sq.col < 8
  }

  /** A square is on the board exactly when `board[row][col]` names one of the board's cells. */
  lemma OnBoardCells(b: Board, sq: Square)
    ensures OnBoard(sq) <==> 0 <= sq.row < |b| && 0 <= sq.col < |b[sq.row]|
  {
  }

  predicate SameSquare(s1: Square, s2: Square)
    ensures SameSquare(s1, s2) <==> s1 == s2
  {
    s1.row == s2.row && s1.col == s2.col
  }

  /** The cell at `sq`, and `null` (`None`) for a square off the board. */
  function PieceAt(b: Board, sq: Square): (p: Cell)
    ensures !OnBoard(sq) ==> p == None
    ensures OnBoard(sq) ==> p == b[sq.row][sq.col]
  {
    if OnBoard(sq) then b[sq.row][sq.col] else None
  }

  /** The mover may land on `t`: on the board, and empty or held by the other colour. */
  predicate Enterable(b: Board, t: Square, color: Color) {
    OnBoard(t) && (PieceAt(b, t).None? || PieceAt(b, t).value.color != color)
  }

  /** `t` holds a piece of the other colour. */
  predicate Capturable(b: Board, t: Square, color: Color) {
    OnBoard(t) && PieceAt(b, t).Some? && PieceAt(b, t).value.color != color
  }

  datatype Offset = Offset(dr: int, dc: int)

  function Shift(sq: Square, o: Offset): Square {
    Square(sq.row + o.dr, sq.col + o.dc)
  }

  function Abs(x: int): nat {
    if x < 0 then -x else x
  }

  /** White's back rank is row 7, Black's row 0. */
  function HomeRow(c: Color): int {
    if c == White then 7 else 0
  }

  // ---------------------------------------------------------------- specification

  const KnightOffsets: seq<Offset> := [
    Offset(-2, -1), Offset(-2, 1), Offset(-1, -2), Offset(-1, 2),
    Offset(1, -2), Offset(1, 2), Offset(2, -1), Offset(2, 1)
  ]

  const KingOffsets: seq<Offset> := [
    Offset(-1, -1), Offset(-1, 0), Offset(-1, 1),
    Offset(0, -1), Offset(0, 1),
    Offset(1, -1), Offset(1, 0), Offset(1, 1)
  ]

  /**
    The targets pushed by a loop over the first `n` fixed offsets: those the mover may
    enter, or (when `captureOnly`) only those holding an enemy piece.
  */
  function Hops(b: Board, start: Square, color: Color, offsets: seq<Offset>, n: nat, captureOnly: bool): seq<Square>
    requires n <= |offsets|
  {
    if n == 0 then []
    else
      var t := Shift(start, offsets[n - 1]);
      var ok := if captureOnly then Capturable(b, t, color) else Enterable(b, t, color);
      Hops(b, start, color, offsets, n - 1, captureOnly) + (if ok then [t] else [])
  }

  predicate IsDirection(dr: int, dc: int) {
    -1 <= dr <= 1 && -1 <= dc <= 1 && (dr != 0 || dc != 0)
  }

  /** Steps a ray can still take from coordinate `x` moving by `d` before leaving the board. */
  function Room(x: int, d: int): nat {
    if d > 0 && x < 8 then 8 - x
    else if d < 0 && x >= 0 then x + 1
    else 0
  }

  /**
    The ray of a `color` slider from (r, c) onward: empty squares, then the first occupied
    square if it holds an enemy piece, and nothing after it.
  */
  function Ray(b: Board, color: Color, r: int, c: int, dr: int, dc: int): seq<Square>
    requires IsDirection(dr, dc)
    decreases Room(r, dr) + Room(c, dc)
  {
    var sq := Square(r, c);
    if !OnBoard(sq) then []
    else match PieceAt(b, sq)
      case None => [sq] + Ray(b, color, r + dr, c + dc, dr, dc)
      case Some(p) => if p.color != color then [sq] else []
  }

  /** `getSlidingMoves`: the ray from `start` in direction (dr, dc), for the piece on `start`. */
  function SlidingMoves(b: Board, start: Square, dr: int, dc: int): seq<Square>
    requires IsDirection(dr, dc)
  {
    match PieceAt(b, start)
    case None => []
    case Some(p) => Ray(b, p.color, start.row + dr, start.col + dc, dr, dc)
  }

  function BishopMoves(b: Board, start: Square): seq<Square> {
    SlidingMoves(b, start, -1, -1) + SlidingMoves(b, start, -1, 1)
      + SlidingMoves(b, start, 1, -1) + SlidingMoves(b, start, 1, 1)
  }

  function RookMoves(b: Board, start: Square): seq<Square> {
    SlidingMoves(b, start, -1, 0) + SlidingMoves(b, start, 1, 0)
      + SlidingMoves(b, start, 0, -1) + SlidingMoves(b, start, 0, 1)
  }

  /** The queen's eight rays, in the source's order: the bishop's four, then the rook's four. */
  function QueenMoves(b: Board, start: Square): seq<Square> {
    BishopMoves(b, start) + RookMoves(b, start)
  }

  function KnightMoves(b: Board, start: Square): seq<Square> {
    match PieceAt(b, start)
    case None => []
    case Some(p) => Hops(b, start, p.color, KnightOffsets, 8, false)
  }

  /** White pawns move toward row 0, Black pawns toward row 7. */
  function PawnDirection(c: Color): int {
    if c == White then -1 else 1
  }

  function PawnStartRow(c: Color): int {
    if c == White then 6 else 1
  }

  function PawnCaptureOffsets(c: Color): seq<Offset> {
    [Offset(PawnDirection(c), -1), Offset(PawnDirection(c), 1)]
  }

  function PawnMoves(b: Board, start: Square): seq<Square> {
    match PieceAt(b, start)
    case None => []
    case Some(p) =>
      var dir := PawnDirection(p.color);
      var fwd1 := Square(start.row + dir, start.col);
      var fwd2 := Square(start.row + 2 * dir, start.col);
      var forward :=
        if OnBoard(fwd1) && PieceAt(b, fwd1).None? then
          [fwd1] + (if start.row == PawnStartRow(p.color) && OnBoard(fwd2) && PieceAt(b, fwd2).None? then [fwd2] else [])
        else [];
      forward + Hops(b, start, p.color, PawnCaptureOffsets(p.color), 2, true)
  }

  /** Termination measure of the move/attack recursion: castling rights present or not. */
  function Level(rights: Option<CastlingRights>): nat {
    if rights.Some? then 1 else 0
  }

  /** `getPseudoLegalMoves`: targets by piece movement rules, before self-check filtering. */
  function PseudoLegal(b: Board, start: Square, rights: Option<CastlingRights>): seq<Square>
    decreases Level(rights), 2
  {
    match PieceAt(b, start)
    case None => []
    case Some(p) =>
      match p.kind
      case Pawn => PawnMoves(b, start)
      case Knight => KnightMoves(b, start)
      case Bishop => BishopMoves(b, start)
      case Rook => RookMoves(b, start)
      case Queen => QueenMoves(b, start)
      case King => KingMoves(b, start, rights)
  }

  /** The eight neighbours the king may enter, then the castling targets when rights are given. */
  function KingMoves(b: Board, start: Square, rights: Option<CastlingRights>): seq<Square>
    decreases Level(rights), 1
  {
    match PieceAt(b, start)
    case None => []
    case Some(p) =>
      Hops(b, start, p.color, KingOffsets, 8, false)
        + (if rights.Some? then Castles(b, p.color, rights.value) else [])
  }

  predicate KingSideOpen(b: Board, color: Color)
    decreases 0, 5
  {
    var row := HomeRow(color);
    var opp := Opponent(color);
    PieceAt(b, Square(row, 5)).None? && PieceAt(b, Square(row, 6)).None?
      && !Attacked(b, Square(row, 4), opp) && !Attacked(b, Square(row, 5), opp) && !Attacked(b, Square(row, 6), opp)
  }

  predicate QueenSideOpen(b: Board, color: Color)
    decreases 0, 5
  {
    var row := HomeRow(color);
    var opp := Opponent(color);
    PieceAt(b, Square(row, 1)).None? && PieceAt(b, Square(row, 2)).None? && PieceAt(b, Square(row, 3)).None?
      && !Attacked(b, Square(row, 4), opp) && !Attacked(b, Square(row, 3), opp) && !Attacked(b, Square(row, 2), opp)
  }

  /** The castling targets of a `color` king: (row, 6) king-side, then (row, 2) queen-side. */
  function Castles(b: Board, color: Color, rights: CastlingRights): seq<Square>
    decreases 0, 6
  {
    var side := RightsOf(rights, color);
    var row := HomeRow(color);
    (if side.k && KingSideOpen(b, color) then [Square(row, 6)] else [])
      + (if side.q && QueenSideOpen(b, color) then [Square(row, 2)] else [])
  }

  /** The piece on `from` is `attacker`'s and its castling-free move set contains `sq`. */
  predicate AttacksFrom(b: Board, from: Square, sq: Square, attacker: Color)
    decreases 0, 3
  {
    PieceAt(b, from).Some? && PieceAt(b, from).value.color == attacker && sq in PseudoLegal(b, from, None)
  }

  /** `isSquareAttacked`: some piece of `attacker` has `sq` among its castling-free pseudo-legal targets. */
  predicate Attacked(b: Board, sq: Square, attacker: Color)
    decreases 0, 4
  {
    exists r, c | 0 <= r < 8 && 0 <= c < 8 :: AttacksFrom(b, Square(r, c), sq, attacker)
  }

  /** `makeMove`: clear the origin, place the piece, promote, relocate the castling rook. */
  function AfterMove(b: Board, m: Move): Board
    requires OnBoard(m.from) && OnBoard(m.to)
  {
    var piece := b[m.from.row][m.from.col];
    var b1 := SetCell(SetCell(b, m.from.row, m.from.col, None), m.to.row, m.to.col, piece);
    var b2 :=
      if piece.Some? && piece.value.kind == Pawn
         && ((piece.value.color == White && m.to.row == 0) || (piece.value.color == Black && m.to.row == 7))
      then SetCell(b1, m.to.row, m.to.col, Some(Piece(m.promotion.GetOr(Queen), piece.value.color)))
      else b1;
    var row := m.to.row;
    if !m.isCastling then b2
    else if m.to.col == 6 then SetCell(SetCell(b2, row, 7, None), row, 5, b2[row][7])
    else if m.to.col == 2 then SetCell(SetCell(b2, row, 0, None), row, 3, b2[row][0])
    else b2
  }

  /** The first `color` king in row-major order, scanning from (r, c). */
  function KingFrom(b: Board, color: Color, r: nat, c: nat): Option<Square>
    requires c < 8
    decreases 8 - r, 8 - c
  {
    if r >= 8 then None
    else if b[r][c] == Some(Piece(King, color)) then Some(Square(r, c))
    else if c == 7 then KingFrom(b, color, r + 1, 0)
    else KingFrom(b, color, r, c + 1)
  }

  /** `findKing`. */
  function FirstKing(b: Board, color: Color): Option<Square> {
    KingFrom(b, color, 0, 0)
  }

  /** `isCheck`: false without a king; otherwise the opponent attacks the king's square. */
  predicate InCheck(b: Board, color: Color) {
    match FirstKing(b, color)
    case None => false
    case Some(k) => Attacked(b, k, Opponent(color))
  }

  /** The move `getLegalMoves` and the click handler build: castling iff a king moves more than one column. */
  function CandidateMove(b: Board, from: Square, to: Square): Move {
    var piece := PieceAt(b, from);
    Move(from, to, None, piece.Some? && piece.value.kind == King && Abs(to.col - from.col) > 1)
  }

  /** The first `n` targets, kept when the move to them leaves `color` out of check. */
  function SafeTargets(b: Board, start: Square, color: Color, targets: seq<Square>, n: nat): seq<Square>
    requires n <= |targets|
    requires OnBoard(start) && forall t <- targets :: OnBoard(t)
  {
    if n == 0 then []
    else
      var t := targets[n - 1];
      SafeTargets(b, start, color, targets, n - 1)
        + (if !InCheck(AfterMove(b, CandidateMove(b, start, t)), color) then [t] else [])
  }

  /** `getLegalMoves`: the pseudo-legal targets that do not leave the mover in check. */
  function LegalMoves(b: Board, start: Square, rights: Option<CastlingRights>): seq<Square> {
    match PieceAt(b, start)
    case None => []
    case Some(p) =>
      var pseudo := PseudoLegal(b, start, rights);
      PseudoLegalTargets(b, start, rights);
      SafeTargets(b, start, p.color, pseudo, |pseudo|)
  }

  /** The piece of `color` on (r, c), if any, has no legal move. */
  predicate Stuck(b: Board, r: int, c: int, color: Color)
    requires 0 <= r < 8 && 0 <= c < 8
  {
    b[r][c].Some? && b[r][c].value.color == color ==> LegalMoves(b, Square(r, c), None) == []
  }

  /** `isCheckmate`: in check, and no piece of `color` has a (castling-free) legal move. */
  predicate Checkmated(b: Board, color: Color) {
    InCheck(b, color) && forall r, c | 0 <= r < 8 && 0 <= c < 8 :: Stuck(b, r, c, color)
  }

  // ---------------------------------------------------------------- well-formedness

  lemma {:induction false} HopsTargets(b: Board, start: Square, color: Color, offsets: seq<Offset>, n: nat, captureOnly: bool)
    requires n <= |offsets|
    ensures forall t <- Hops(b, start, color, offsets, n, captureOnly) :: Enterable(b, t, color)
    ensures captureOnly ==> forall t <- Hops(b, start, color, offsets, n, captureOnly) :: Capturable(b, t, color)
  {
    if n > 0 {
      HopsTargets(b, start, color, offsets, n - 1, captureOnly);
    }
  }

  lemma {:induction false} RayTargets(b: Board, color: Color, r: int, c: int, dr: int, dc: int)
    requires IsDirection(dr, dc)
    ensures forall t <- Ray(b, color, r, c, dr, dc) :: Enterable(b, t, color)
    decreases Room(r, dr) + Room(c, dc)
  {
    if OnBoard(Square(r, c)) && PieceAt(b, Square(r, c)).None? {
      RayTargets(b, color, r + dr, c + dc, dr, dc);
    }
  }

  lemma SlidingTargets(b: Board, start: Square, dr: int, dc: int)
    requires IsDirection(dr, dc)
    requires PieceAt(b, start).Some?
    ensures forall t <- SlidingMoves(b, start, dr, dc) :: Enterable(b, t, PieceAt(b, start).value.color)
  {
    RayTargets(b, PieceAt(b, start).value.color, start.row + dr, start.col + dc, dr, dc);
  }

  lemma CastlesTargets(b: Board, color: Color, rights: CastlingRights)
    ensures forall t <- Castles(b, color, rights) :: OnBoard(t) && PieceAt(b, t).None?
  {
  }

  /**
    An empty start square yields no moves; every pseudo-legal target is on the board and
    never holds a piece of the mover's colour.
  */
  lemma PseudoLegalTargets(b: Board, start: Square, rights: Option<CastlingRights>)
    ensures PieceAt(b, start).None? ==> PseudoLegal(b, start, rights) == []
    ensures PieceAt(b, start).Some? ==>
      forall t <- PseudoLegal(b, start, rights) :: Enterable(b, t, PieceAt(b, start).value.color)
  {
    if PieceAt(b, start).Some? {
      var p := PieceAt(b, start).value;
      match p.kind
      case Pawn =>
        HopsTargets(b, start, p.color, PawnCaptureOffsets(p.color), 2, true);
      case Knight =>
        HopsTargets(b, start, p.color, KnightOffsets, 8, false);
      case Bishop =>
        SlidingTargets(b, start, -1, -1); SlidingTargets(b, start, -1, 1);
        SlidingTargets(b, start, 1, -1); SlidingTargets(b, start, 1, 1);
      case Rook =>
        SlidingTargets(b, start, -1, 0); SlidingTargets(b, start, 1, 0);
        SlidingTargets(b, start, 0, -1); SlidingTargets(b, start, 0, 1);
      case Queen =>
        SlidingTargets(b, start, -1, -1); SlidingTargets(b, start, -1, 1);
        SlidingTargets(b, start, 1, -1); SlidingTargets(b, start, 1, 1);
        SlidingTargets(b, start, -1, 0); SlidingTargets(b, start, 1, 0);
        SlidingTargets(b, start, 0, -1); SlidingTargets(b, start, 0, 1);
      case King =>
        HopsTargets(b, start, p.color, KingOffsets, 8, false);
        if rights.Some? {
          CastlesTargets(b, p.color, rights.value);
        }
    }
  }

  // ---------------------------------------------------------------- the source's algorithms

  /** `getSlidingMoves`: walks the ray with a running (r, c), pushing squares until blocked. */
  method GetSlidingMoves(b: Board, start: Square, dr: int, dc: int) returns (moves: seq<Square>)
    requires IsDirection(dr, dc)
    ensures moves == SlidingMoves(b, start, dr, dc)
  {
    moves := [];
    var piece := PieceAt(b, start);
    if piece.None? {
      return;
    }
    var color := piece.value.color;
    var r := start.row + dr;
    var c := start.col + dc;
    while OnBoard(Square(r, c))
      invariant moves + Ray(b, color, r, c, dr, dc) == SlidingMoves(b, start, dr, dc)
      decreases Room(r, dr) + Room(c, dc)
    {
      var targetSq := Square(r, c);
      var targetPiece := PieceAt(b, targetSq);
      if targetPiece.None? {
        moves := moves + [targetSq];
      } else {
        if targetPiece.value.color != color {
          moves := moves + [targetSq];
        }
        return;
      }
      r, c := r + dr, c + dc;
    }
  }

  /** `getKnightMoves`: one pass over the eight L-shaped offsets. */
  method GetKnightMoves(b: Board, start: Square) returns (moves: seq<Square>)
    ensures moves == KnightMoves(b, start)
  {
    moves := [];
    var piece := PieceAt(b, start);
    if piece.None? {
      return;
    }
    for i := 0 to |KnightOffsets|
      invariant moves == Hops(b, start, piece.value.color, KnightOffsets, i, false)
    {
      var targetSq := Shift(start, KnightOffsets[i]);
      if OnBoard(targetSq) {
        var targetPiece := PieceAt(b, targetSq);
        if targetPiece.None? || targetPiece.value.color != piece.value.color {
          moves := moves + [targetSq];
        }
      }
    }
  }

  /** `getPawnMoves`: single and double pushes, then the two diagonal captures. */
  method GetPawnMoves(b: Board, start: Square) returns (moves: seq<Square>)
    ensures moves == PawnMoves(b, start)
  {
    moves := [];
    var piece := PieceAt(b, start);
    if piece.None? {
      return;
    }
    var color := piece.value.color;
    var direction := PawnDirection(color);
    var startRow := PawnStartRow(color);
    var fwd1 := Square(start.row + direction, start.col);
    if OnBoard(fwd1) && PieceAt(b, fwd1).None? {
      moves := moves + [fwd1];
      var fwd2 := Square(start.row + 2 * direction, start.col);
      if start.row == startRow && OnBoard(fwd2) && PieceAt(b, fwd2).None? {
        moves := moves + [fwd2];
      }
    }
    ghost var forward := moves;
    var captureOffsets := PawnCaptureOffsets(color);
    for i := 0 to |captureOffsets|
      invariant moves == forward + Hops(b, start, color, captureOffsets, i, true)
    {
      var targetSq := Shift(start, captureOffsets[i]);
      if OnBoard(targetSq) {
        var targetPiece := PieceAt(b, targetSq);
        if targetPiece.Some? && targetPiece.value.color != color {
          moves := moves + [targetSq];
        }
      }
    }
  }

  /** `getKingMoves`: the eight neighbours, then castling when rights are passed. */
  method GetKingMoves(b: Board, start: Square, rights: Option<CastlingRights>) returns (moves: seq<Square>)
    ensures moves == KingMoves(b, start, rights)
    decreases Level(rights), 1
  {
    moves := [];
    var piece := PieceAt(b, start);
    if piece.None? {
      return;
    }
    var color := piece.value.color;
    for i := 0 to |KingOffsets|
      invariant moves == Hops(b, start, color, KingOffsets, i, false)
    {
      var targetSq := Shift(start, KingOffsets[i]);
      if OnBoard(targetSq) {
        var targetPiece := PieceAt(b, targetSq);
        if targetPiece.None? || targetPiece.value.color != color {
          moves := moves + [targetSq];
        }
      }
    }
    if rights.Some? {
      var side := RightsOf(rights.value, color);
      var row := HomeRow(color);
      var opponentColor := Opponent(color);
      ghost var steps := moves;
      if side.k {
        var open := PieceAt(b, Square(row, 5)).None? && PieceAt(b, Square(row, 6)).None?;
        if open {
          var attacked := IsSquareAttacked(b, Square(row, 4), opponentColor);
          open := !attacked;
        }
        if open {
          var attacked := IsSquareAttacked(b, Square(row, 5), opponentColor);
          open := !attacked;
        }
        if open {
          var attacked := IsSquareAttacked(b, Square(row, 6), opponentColor);
          open := !attacked;
        }
        assert open == KingSideOpen(b, color);
        if open {
          moves := moves + [Square(row, 6)];
        }
      }
      ghost var kingSide := moves;
      if side.q {
        var open := PieceAt(b, Square(row, 1)).None? && PieceAt(b, Square(row, 2)).None?
          && PieceAt(b, Square(row, 3)).None?;
        if open {
          var attacked := IsSquareAttacked(b, Square(row, 4), opponentColor);
          open := !attacked;
        }
        if open {
          var attacked := IsSquareAttacked(b, Square(row, 3), opponentColor);
          open := !attacked;
        }
        if open {
          var attacked := IsSquareAttacked(b, Square(row, 2), opponentColor);
          open := !attacked;
        }
        assert open == QueenSideOpen(b, color);
        if open {
          moves := moves + [Square(row, 2)];
        }
      }
      assert moves == steps + Castles(b, color, rights.value);
    }
  }

  /** `getPseudoLegalMoves`: dispatch on the piece type. */
  method GetPseudoLegalMoves(b: Board, start: Square, rights: Option<CastlingRights>) returns (moves: seq<Square>)
    ensures moves == PseudoLegal(b, start, rights)
    decreases Level(rights), 2
  {
    var piece := PieceAt(b, start);
    if piece.None? {
      return [];
    }
    match piece.value.kind
    case Pawn =>
      moves := GetPawnMoves(b, start);
    case Knight =>
      moves := GetKnightMoves(b, start);
    case Bishop =>
      moves := GetBishopMoves(b, start);
    case Rook =>
      moves := GetRookMoves(b, start);
    case Queen =>
      var diagonal := GetBishopMoves(b, start);
      var straight := GetRookMoves(b, start);
      moves := diagonal + straight;
    case King =>
      moves := GetKingMoves(b, start, rights);
  }

  method GetBishopMoves(b: Board, start: Square) returns (moves: seq<Square>)
    ensures moves == BishopMoves(b, start)
  {
    var m1 := GetSlidingMoves(b, start, -1, -1);
    var m2 := GetSlidingMoves(b, start, -1, 1);
    var m3 := GetSlidingMoves(b, start, 1, -1);
    var m4 := GetSlidingMoves(b, start, 1, 1);
    moves := m1 + m2 + m3 + m4;
  }

  method GetRookMoves(b: Board, start: Square) returns (moves: seq<Square>)
    ensures moves == RookMoves(b, start)
  {
    var m1 := GetSlidingMoves(b, start, -1, 0);
    var m2 := GetSlidingMoves(b, start, 1, 0);
    var m3 := GetSlidingMoves(b, start, 0, -1);
    var m4 := GetSlidingMoves(b, start, 0, 1);
    moves := m1 + m2 + m3 + m4;
  }

  /** `isSquareAttacked`: scans the board, asking each `attacker` piece for its castling-free moves. */
  method IsSquareAttacked(b: Board, sq: Square, attacker: Color) returns (attacked: bool)
    ensures attacked == Attacked(b, sq, attacker)
    decreases 0, 3
  {
    for r := 0 to 8
      invariant forall r', c' | 0 <= r' < r && 0 <= c' < 8 :: !AttacksFrom(b, Square(r', c'), sq, attacker)
    {
      for c := 0 to 8
        invariant forall r', c' | 0 <= r' < r && 0 <= c' < 8 :: !AttacksFrom(b, Square(r', c'), sq, attacker)
        invariant forall c' | 0 <= c' < c :: !AttacksFrom(b, Square(r, c'), sq, attacker)
      {
        var piece := b[r][c];
        if piece.Some? && piece.value.color == attacker {
          var moves := GetPseudoLegalMoves(b, Square(r, c), None);
          if sq in moves {
            assert AttacksFrom(b, Square(r, c), sq, attacker);
            return true;
          }
        }
        assert !AttacksFrom(b, Square(r, c), sq, attacker);
      }
      forall r', c' | 0 <= r' <= r && 0 <= c' < 8
        ensures !AttacksFrom(b, Square(r', c'), sq, attacker)
      {
        if r' == r {
          assert 0 <= c' < 8;
        }
      }
    }
    return false;
  }

  /** `makeMove`: copies the board into a fresh grid and assigns the changed cells in place. */
  method MakeMove(b: Board, move: Move) returns (nb: Board)
    requires OnBoard(move.from) && OnBoard(move.to)
    ensures nb == AfterMove(b, move)
  {
    var grid := CopyToGrid(b);
    var piece := grid[move.from.row, move.from.col];
    Write(grid, move.from.row, move.from.col, None);
    Write(grid, move.to.row, move.to.col, piece);
    if piece.Some? && piece.value.kind == Pawn {
      if (piece.value.color == White && move.to.row == 0) || (piece.value.color == Black && move.to.row == 7) {
        Write(grid, move.to.row, move.to.col, Some(Piece(move.promotion.GetOr(Queen), piece.value.color)));
      }
    }
    if move.isCastling {
      var row := move.to.row;
      if move.to.col == 6 {
        var rook := grid[row, 7];
        Write(grid, row, 7, None);
        Write(grid, row, 5, rook);
      } else if move.to.col == 2 {
        var rook := grid[row, 0];
        Write(grid, row, 0, None);
        Write(grid, row, 3, rook);
      }
    }
    nb := Snapshot(grid);
  }

  /** `findKing`: row-major scan with early return. */
  method FindKing(b: Board, color: Color) returns (king: Option<Square>)
    ensures king == FirstKing(b, color)
  {
    for r := 0 to 8
      invariant FirstKing(b, color) == KingFrom(b, color, r, 0)
    {
      for c := 0 to 8
        invariant c < 8 ==> FirstKing(b, color) == KingFrom(b, color, r, c)
        invariant c == 8 ==> FirstKing(b, color) == KingFrom(b, color, r + 1, 0)
      {
        var piece := b[r][c];
        if piece.Some? && piece.value.kind == King && piece.value.color == color {
          return Some(Square(r, c));
        }
      }
    }
    return None;
  }

  /** `isCheck`: locate the king, then run the attack scan of the opponent on its square. */
  method IsCheck(b: Board, color: Color) returns (check: bool)
    ensures check == InCheck(b, color)
  {
    var kingPos := FindKing(b, color);
    if kingPos.None? {
      return false;
    }
    check := IsSquareAttacked(b, kingPos.value, Opponent(color));
  }

  /** `getLegalMoves`: simulates each pseudo-legal move and keeps those that leave no check. */
  method GetLegalMoves(b: Board, start: Square, rights: Option<CastlingRights>) returns (legal: seq<Square>)
    ensures legal == LegalMoves(b, start, rights)
  {
    var piece := PieceAt(b, start);
    if piece.None? {
      return [];
    }
    var pseudoMoves := GetPseudoLegalMoves(b, start, rights);
    PseudoLegalTargets(b, start, rights);
    legal := [];
    for i := 0 to |pseudoMoves|
      invariant legal == SafeTargets(b, start, piece.value.color, pseudoMoves, i)
    {
      var target := pseudoMoves[i];
      assert target in pseudoMoves;
      var isCastling := piece.value.kind == King && Abs(target.col - start.col) > 1;
      var move := Move(start, target, None, isCastling);
      var newBoard := MakeMove(b, move);
      var check := IsCheck(newBoard, piece.value.color);
      if !check {
        legal := legal + [target];
      }
    }
  }

  /** `isCheckmate`: in check, and every own piece has an empty legal-move set. */
  method IsCheckmate(b: Board, color: Color) returns (mate: bool)
    ensures mate == Checkmated(b, color)
  {
    var check := IsCheck(b, color);
    if !check {
      return false;
    }
    for r := 0 to 8
      invariant forall r', c' | 0 <= r' < r && 0 <= c' < 8 :: Stuck(b, r', c', color)
    {
      for c := 0 to 8
        invariant forall r', c' | 0 <= r' < r && 0 <= c' < 8 :: Stuck(b, r', c', color)
        invariant forall c' | 0 <= c' < c :: Stuck(b, r, c', color)
      {
        var piece := b[r][c];
        if piece.Some? && piece.value.color == color {
          var moves := GetLegalMoves(b, Square(r, c), None);
          if |moves| > 0 {
            assert !Stuck(b, r, c, color);
            return false;
          }
        }
        assert Stuck(b, r, c, color);
      }
      forall r', c' | 0 <= r' <= r && 0 <= c' < 8
        ensures Stuck(b, r', c', color)
      {
        if r' == r {
          assert 0 <= c' < 8;
        }
      }
    }
    return true;
  }
}
