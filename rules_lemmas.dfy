/**
  Properties of the move rules in `Rules`: the shape of a sliding ray, the pawn and
  castling rules, what the move executor changes, self-check filtering, the king
  search and the check and checkmate tests.
*/
module RulesLemmas {
  import opened Wrappers
  import opened ChessTypes
  import opened Rules

  // ---------------------------------------------------------------- fixed-offset jumps

  /** A target is in the first `n` hops iff it is one of those offsets' squares and may be entered. */
  lemma {:induction false} HopsMembership(b: Board, start: Square, color: Color, offsets: seq<Offset>, n: nat, captureOnly: bool, t: Square)
    requires n <= |offsets|
    ensures t in Hops(b, start, color, offsets, n, captureOnly) <==>
      (exists i | 0 <= i < n :: t == Shift(start, offsets[i]))
      && (if captureOnly then Capturable(b, t, color) else Enterable(b, t, color))
  {
    if n > 0 {
      HopsMembership(b, start, color, offsets, n - 1, captureOnly, t);
    }
  }

  /** Knight targets: the L-shaped squares the knight may enter, nothing else. */
  lemma KnightTargets(b: Board, start: Square, t: Square)
    requires PieceAt(b, start).Some?
    ensures t in KnightMoves(b, start) <==>
      (exists i | 0 <= i < 8 :: t == Shift(start, KnightOffsets[i])) && Enterable(b, t, PieceAt(b, start).value.color)
  {
    HopsMembership(b, start, PieceAt(b, start).value.color, KnightOffsets, 8, false, t);
  }

  // ---------------------------------------------------------------- sliding rays

  /** `k` steps along one coordinate of a direction (-1, 0 or 1): the linear form of k * d. */
  function Stride(k: int, d: int): int {
    if d > 0 then k else if d < 0 then -k else 0
  }

  /** Prepending a square to a run that starts one step further keeps it a run. */
  lemma ConsRun(sq: Square, rest: seq<Square>, dr: int, dc: int)
    requires IsDirection(dr, dc)
    requires forall k | 0 <= k < |rest| :: rest[k] == Square(sq.row + dr + Stride(k, dr), sq.col + dc + Stride(k, dc))
    ensures var s := [sq] + rest;
      forall k | 0 <= k < |s| :: s[k] == Square(sq.row + Stride(k, dr), sq.col + Stride(k, dc))
  {
    var s := [sq] + rest;
    forall k | 1 <= k < |s|
      ensures s[k] == Square(sq.row + Stride(k, dr), sq.col + Stride(k, dc))
    {
      assert s[k] == rest[k - 1];
      assert dr + Stride(k - 1, dr) == Stride(k, dr) && dc + Stride(k - 1, dc) == Stride(k, dc);
    }
  }

  /** A ray from (r, c) is the run of consecutive squares k steps along (dr, dc). */
  lemma {:induction false} RaySquares(b: Board, color: Color, r: int, c: int, dr: int, dc: int)
    requires IsDirection(dr, dc)
    ensures var s := Ray(b, color, r, c, dr, dc);
      forall k | 0 <= k < |s| :: s[k] == Square(r + Stride(k, dr), c + Stride(k, dc))
    decreases Room(r, dr) + Room(c, dc)
  {
    var sq := Square(r, c);
    if OnBoard(sq) && PieceAt(b, sq).None? {
      RaySquares(b, color, r + dr, c + dc, dr, dc);
      ConsRun(sq, Ray(b, color, r + dr, c + dc, dr, dc), dr, dc);
    }
  }

  /** All squares of `s` but the last are empty, and the last may be entered by `color`. */
  predicate OpenRun(b: Board, s: seq<Square>, color: Color) {
    && (forall k | 0 <= k < |s| - 1 :: PieceAt(b, s[k]).None?)
    && (|s| > 0 ==> Enterable(b, s[|s| - 1], color))
  }

  lemma ConsOpenRun(b: Board, sq: Square, rest: seq<Square>, color: Color)
    requires OnBoard(sq) && PieceAt(b, sq).None? && OpenRun(b, rest, color)
    ensures OpenRun(b, [sq] + rest, color)
  {
    var s := [sq] + rest;
    forall k | 1 <= k < |s| - 1
      ensures PieceAt(b, s[k]).None?
    {
      assert s[k] == rest[k - 1];
    }
    if |rest| > 0 {
      assert s[|s| - 1] == rest[|rest| - 1];
    }
  }

  /** Every square of a ray but the last is empty, and the last is empty or an enemy. */
  lemma {:induction false} RayStops(b: Board, color: Color, r: int, c: int, dr: int, dc: int)
    requires IsDirection(dr, dc)
    ensures OpenRun(b, Ray(b, color, r, c, dr, dc), color)
    decreases Room(r, dr) + Room(c, dc)
  {
    var sq := Square(r, c);
    if OnBoard(sq) && PieceAt(b, sq).None? {
      RayStops(b, color, r + dr, c + dc, dr, dc);
      ConsOpenRun(b, sq, Ray(b, color, r + dr, c + dc, dr, dc), color);
    }
  }

  /**
    `s`, read as a run from (r, c) along (dr, dc), cannot be extended: when its last square is
    empty (or it has none), the next square is off the board or holds a piece of `color`.
  */
  predicate Blocked(b: Board, s: seq<Square>, color: Color, r: int, c: int, dr: int, dc: int) {
    (|s| == 0 || PieceAt(b, s[|s| - 1]).None?) ==>
      var next := Square(r + Stride(|s|, dr), c + Stride(|s|, dc));
      !OnBoard(next) || (PieceAt(b, next).Some? && PieceAt(b, next).value.color == color)
  }

  lemma ConsBlocked(b: Board, sq: Square, rest: seq<Square>, color: Color, dr: int, dc: int)
    requires IsDirection(dr, dc)
    requires Blocked(b, rest, color, sq.row + dr, sq.col + dc, dr, dc)
    ensures Blocked(b, [sq] + rest, color, sq.row, sq.col, dr, dc)
  {
    var s := [sq] + rest;
    if |rest| > 0 {
      assert s[|s| - 1] == rest[|rest| - 1];
    }
    assert dr + Stride(|rest|, dr) == Stride(|s|, dr) && dc + Stride(|rest|, dc) == Stride(|s|, dc);
  }

  /**
    A ray is as long as it can be: when its last square is empty (or it has none), the next
    square in the direction is off the board or holds a piece of the slider's colour.
  */
  lemma {:induction false} RayEnds(b: Board, color: Color, r: int, c: int, dr: int, dc: int)
    requires IsDirection(dr, dc)
    ensures Blocked(b, Ray(b, color, r, c, dr, dc), color, r, c, dr, dc)
    decreases Room(r, dr) + Room(c, dc)
  {
    var sq := Square(r, c);
    if OnBoard(sq) && PieceAt(b, sq).None? {
      RayEnds(b, color, r + dr, c + dc, dr, dc);
      ConsBlocked(b, sq, Ray(b, color, r + dr, c + dc, dr, dc), color, dr, dc);
    } else if OnBoard(sq) && PieceAt(b, sq).value.color != color {
      assert Ray(b, color, r, c, dr, dc) == [sq];
    } else {
      assert Ray(b, color, r, c, dr, dc) == [];
      assert Square(r + Stride(0, dr), c + Stride(0, dc)) == sq;
    }
  }

  /**
    `getSlidingMoves` from `start`: nothing from an empty square; otherwise the run of squares
    beginning one step from `start`, open up to its last square and blocked after it.
  */
  lemma SlidingShape(b: Board, start: Square, dr: int, dc: int)
    requires IsDirection(dr, dc)
    ensures PieceAt(b, start).None? ==> SlidingMoves(b, start, dr, dc) == []
    ensures PieceAt(b, start).Some? ==>
      var color := PieceAt(b, start).value.color;
      var s := SlidingMoves(b, start, dr, dc);
      var r, c := start.row + dr, start.col + dc;
      && (forall k | 0 <= k < |s| :: s[k] == Square(r + Stride(k, dr), c + Stride(k, dc)))
      && OpenRun(b, s, color)
      && Blocked(b, s, color, r, c, dr, dc)
  {
    if PieceAt(b, start).Some? {
      var color := PieceAt(b, start).value.color;
      RaySquares(b, color, start.row + dr, start.col + dc, dr, dc);
      RayStops(b, color, start.row + dr, start.col + dc, dr, dc);
      RayEnds(b, color, start.row + dr, start.col + dc, dr, dc);
    }
  }

  // ---------------------------------------------------------------- pawns

  /**
    A pawn's targets: one step forward onto an empty square; two steps only from its start
    row with both squares empty; one step diagonally forward only onto an enemy piece.
  */
  lemma PawnTargets(b: Board, start: Square, t: Square)
    requires PieceAt(b, start).Some?
    ensures var color := PieceAt(b, start).value.color;
      var dir := PawnDirection(color);
      var fwd1 := Square(start.row + dir, start.col);
      var fwd2 := Square(start.row + 2 * dir, start.col);
      t in PawnMoves(b, start) <==>
        || (t == fwd1 && OnBoard(fwd1) && PieceAt(b, fwd1).None?)
        || (t == fwd2 && start.row == PawnStartRow(color)
            && OnBoard(fwd1) && PieceAt(b, fwd1).None? && OnBoard(fwd2) && PieceAt(b, fwd2).None?)
        || (t.row == start.row + dir && (t.col == start.col - 1 || t.col == start.col + 1) && Capturable(b, t, color))
  {
    var color := PieceAt(b, start).value.color;
    var offsets := PawnCaptureOffsets(color);
    HopsMembership(b, start, color, offsets, 2, true, t);
    if t.row == start.row + PawnDirection(color) && t.col == start.col - 1 {
      assert t == Shift(start, offsets[0]);
    }
    if t.row == start.row + PawnDirection(color) && t.col == start.col + 1 {
      assert t == Shift(start, offsets[1]);
    }
  }

  // ---------------------------------------------------------------- castling

  /**
    Castling targets: (row, 6) iff the king-side right holds, columns 5 and 6 are empty and
    columns 4, 5 and 6 are not attacked by the opponent; (row, 2) iff the queen-side right
    holds, columns 1 to 3 are empty and columns 4, 3 and 2 are not attacked. `row` is the
    colour's back rank.
  */
  lemma CastlingTargets(b: Board, color: Color, rights: CastlingRights, t: Square)
    ensures var row := HomeRow(color);
      var opp := Opponent(color);
      var side := RightsOf(rights, color);
      t in Castles(b, color, rights) <==>
        || (t == Square(row, 6) && side.k
            && PieceAt(b, Square(row, 5)).None? && PieceAt(b, Square(row, 6)).None?
            && !Attacked(b, Square(row, 4), opp) && !Attacked(b, Square(row, 5), opp) && !Attacked(b, Square(row, 6), opp))
        || (t == Square(row, 2) && side.q
            && PieceAt(b, Square(row, 1)).None? && PieceAt(b, Square(row, 2)).None? && PieceAt(b, Square(row, 3)).None?
            && !Attacked(b, Square(row, 4), opp) && !Attacked(b, Square(row, 3), opp) && !Attacked(b, Square(row, 2), opp))
  {
  }

  /** Without castling rights the king only steps to its neighbours; with them, castling targets are added. */
  lemma KingTargets(b: Board, start: Square, rights: Option<CastlingRights>, t: Square)
    requires PieceAt(b, start).Some?
    ensures var color := PieceAt(b, start).value.color;
      t in KingMoves(b, start, rights) <==>
        || ((exists i | 0 <= i < 8 :: t == Shift(start, KingOffsets[i])) && Enterable(b, t, color))
        || (rights.Some? && t in Castles(b, color, rights.value))
  {
    HopsMembership(b, start, PieceAt(b, start).value.color, KingOffsets, 8, false, t);
  }

  // ---------------------------------------------------------------- the move executor

  /** The piece a move leaves on its destination: the moving piece, promoted on the last rank. */
  function Arriving(b: Board, m: Move): Cell
    requires OnBoard(m.from)
  {
    var p := b[m.from.row][m.from.col];
    if p.Some? && p.value.kind == Pawn && m.to.row == (if p.value.color == White then 0 else 7)
    then Some(Piece(m.promotion.GetOr(Queen), p.value.color))
    else p
  }

  /** The rook's (origin, destination) columns of a castling move, if it moves a rook. */
  function RookShift(m: Move): Option<(int, int)> {
    if m.isCastling && m.to.col == 6 then Some((7, 5))
    else if m.isCastling && m.to.col == 2 then Some((0, 3))
    else None
  }

  /**
    On the new board the origin is empty, the destination holds the arriving piece, a
    castling rook moves 7 -> 5 or 0 -> 3 on the destination row, and every other square is
    unchanged. Holds whenever origin, destination and the rook's squares are distinct.
  */
  lemma AfterMoveCells(b: Board, m: Move)
    requires OnBoard(m.from) && OnBoard(m.to) && m.from != m.to
    requires RookShift(m).Some? ==>
      m.from != Square(m.to.row, RookShift(m).value.0) && m.from != Square(m.to.row, RookShift(m).value.1)
    ensures var nb := AfterMove(b, m);
      && nb[m.from.row][m.from.col] == None
      && nb[m.to.row][m.to.col] == Arriving(b, m)
      && (RookShift(m).Some? ==>
            var (rf, rt) := RookShift(m).value;
            nb[m.to.row][rf] == None && nb[m.to.row][rt] == b[m.to.row][rf])
      && (forall r, c | 0 <= r < 8 && 0 <= c < 8 && Square(r, c) != m.from && Square(r, c) != m.to
            && (RookShift(m).Some? ==>
                  Square(r, c) != Square(m.to.row, RookShift(m).value.0) && Square(r, c) != Square(m.to.row, RookShift(m).value.1))
            :: nb[r][c] == b[r][c])
  {
  }

  // ---------------------------------------------------------------- self-check filtering

  /** `xs` is an order-preserving subsequence of `ys`. */
  predicate IsSubsequence<T(==)>(xs: seq<T>, ys: seq<T>)
    decreases |ys|
  {
    if |ys| == 0 then xs == []
    else
      (|xs| > 0 && xs[|xs| - 1] == ys[|ys| - 1] && IsSubsequence(xs[..|xs| - 1], ys[..|ys| - 1]))
      || IsSubsequence(xs, ys[..|ys| - 1])
  }

  /** The self-check filter keeps its survivors in their original order. */
  lemma {:induction false} SafeTargetsOrder(b: Board, start: Square, color: Color, targets: seq<Square>, n: nat)
    requires n <= |targets|
    requires OnBoard(start) && forall t <- targets :: OnBoard(t)
    ensures IsSubsequence(SafeTargets(b, start, color, targets, n), targets[..n])
  {
    if n > 0 {
      SafeTargetsOrder(b, start, color, targets, n - 1);
      var s := SafeTargets(b, start, color, targets, n);
      assert targets[..n][..n - 1] == targets[..n - 1];
      if |s| > 0 && s[|s| - 1] == targets[n - 1] && s[..|s| - 1] == SafeTargets(b, start, color, targets, n - 1) {
      } else {
        assert s == SafeTargets(b, start, color, targets, n - 1);
      }
    }
  }

  /** The self-check filter keeps `t` exactly when it is a target whose move does not leave `color` in check. */
  lemma {:induction false} SafeTargetsMember(b: Board, start: Square, color: Color, targets: seq<Square>, n: nat, t: Square)
    requires n <= |targets|
    requires OnBoard(start) && forall t <- targets :: OnBoard(t)
    ensures t in SafeTargets(b, start, color, targets, n) <==>
      t in targets[..n] && OnBoard(t) && !InCheck(AfterMove(b, CandidateMove(b, start, t)), color)
  {
    if n > 0 {
      SafeTargetsMember(b, start, color, targets, n - 1, t);
      assert targets[..n] == targets[..n - 1] + [targets[n - 1]];
    }
  }

  /**
    `getLegalMoves` keeps, in order, exactly the pseudo-legal targets whose move (castling iff
    a king moves more than one column) does not leave the mover in check.
  */
  lemma LegalMovesFilter(b: Board, start: Square, rights: Option<CastlingRights>)
    ensures IsSubsequence(LegalMoves(b, start, rights), PseudoLegal(b, start, rights))
    ensures forall t :: t in LegalMoves(b, start, rights) <==>
      && PieceAt(b, start).Some?
      && t in PseudoLegal(b, start, rights)
      && OnBoard(t)
      && !InCheck(AfterMove(b, CandidateMove(b, start, t)), PieceAt(b, start).value.color)
  {
    PseudoLegalTargets(b, start, rights);
    var pseudo := PseudoLegal(b, start, rights);
    if PieceAt(b, start).Some? {
      SafeTargetsOrder(b, start, PieceAt(b, start).value.color, pseudo, |pseudo|);
      forall t {
        SafeTargetsMember(b, start, PieceAt(b, start).value.color, pseudo, |pseudo|, t);
      }
      assert pseudo[..|pseudo|] == pseudo;
    } else {
      assert IsSubsequence<Square>([], []);
    }
  }

  /** Every legal target is on the board and free of the mover's own pieces. */
  lemma LegalTargetsEnterable(b: Board, start: Square, rights: Option<CastlingRights>)
    ensures forall t <- LegalMoves(b, start, rights) ::
      PieceAt(b, start).Some? && Enterable(b, t, PieceAt(b, start).value.color)
  {
    LegalMovesFilter(b, start, rights);
    PseudoLegalTargets(b, start, rights);
  }

  // ---------------------------------------------------------------- king search, check, mate

  /** Row-major order on squares. */
  predicate Before(r1: int, c1: int, r2: int, c2: int) {
    r1 < r2 || (r1 == r2 && c1 < c2)
  }

  lemma {:induction false} KingFromSpec(b: Board, color: Color, r: nat, c: nat)
    requires c < 8
    ensures var k := KingFrom(b, color, r, c);
      && (k.Some? ==>
            && OnBoard(k.value) && b[k.value.row][k.value.col] == Some(Piece(King, color))
            && !Before(k.value.row, k.value.col, r, c)
            && forall i, j | 0 <= i < 8 && 0 <= j < 8 && !Before(i, j, r, c) && Before(i, j, k.value.row, k.value.col)
                 :: b[i][j] != Some(Piece(King, color)))
      && (k.None? <==> forall i, j | 0 <= i < 8 && 0 <= j < 8 && !Before(i, j, r, c) :: b[i][j] != Some(Piece(King, color)))
    decreases 8 - r, 8 - c
  {
    if r < 8 && b[r][c] != Some(Piece(King, color)) {
      if c == 7 {
        KingFromSpec(b, color, r + 1, 0);
      } else {
        KingFromSpec(b, color, r, c + 1);
      }
    }
  }

  /**
    `findKing` returns the first square in row-major order holding the colour's king, and
    `null` exactly when the board has no such king.
  */
  lemma FirstKingSpec(b: Board, color: Color)
    ensures var k := FirstKing(b, color);
      && (k.Some? ==>
            && OnBoard(k.value) && b[k.value.row][k.value.col] == Some(Piece(King, color))
            && forall i, j | 0 <= i < 8 && 0 <= j < 8 && Before(i, j, k.value.row, k.value.col)
                 :: b[i][j] != Some(Piece(King, color)))
      && (k.None? <==> forall i, j | 0 <= i < 8 && 0 <= j < 8 :: b[i][j] != Some(Piece(King, color)))
  {
    KingFromSpec(b, color, 0, 0);
  }

  /**
    `isCheck` is false when the colour has no king; it is true exactly when an opponent
    piece's castling-free pseudo-legal targets include the square of the first such king.
  */
  lemma CheckSpec(b: Board, color: Color)
    ensures (forall i, j | 0 <= i < 8 && 0 <= j < 8 :: b[i][j] != Some(Piece(King, color))) ==> !InCheck(b, color)
    ensures InCheck(b, color) <==>
      exists k, r, c | FirstKing(b, color) == Some(k) && 0 <= r < 8 && 0 <= c < 8 ::
        b[r][c].Some? && b[r][c].value.color == Opponent(color) && k in PseudoLegal(b, Square(r, c), None)
  {
    FirstKingSpec(b, color);
    if FirstKing(b, color).Some? {
      var k := FirstKing(b, color).value;
      if InCheck(b, color) {
        var r, c :| 0 <= r < 8 && 0 <= c < 8 && AttacksFrom(b, Square(r, c), k, Opponent(color));
        assert b[r][c].Some? && b[r][c].value.color == Opponent(color) && k in PseudoLegal(b, Square(r, c), None);
      }
      if exists r, c | 0 <= r < 8 && 0 <= c < 8 ::
          b[r][c].Some? && b[r][c].value.color == Opponent(color) && k in PseudoLegal(b, Square(r, c), None) {
        var r, c :| 0 <= r < 8 && 0 <= c < 8 &&
          b[r][c].Some? && b[r][c].value.color == Opponent(color) && k in PseudoLegal(b, Square(r, c), None);
        assert AttacksFrom(b, Square(r, c), k, Opponent(color));
      }
    }
  }

  /**
    A checkmated colour is in check, and every castling-free pseudo-legal move of each of its
    pieces leaves it in check.
  */
  lemma CheckmateSpec(b: Board, color: Color)
    requires Checkmated(b, color)
    ensures InCheck(b, color)
    ensures forall r, c, t | 0 <= r < 8 && 0 <= c < 8 && b[r][c].Some? && b[r][c].value.color == color
      && t in PseudoLegal(b, Square(r, c), None) && OnBoard(t) ::
        InCheck(AfterMove(b, CandidateMove(b, Square(r, c), t)), color)
  {
    forall r, c, t | 0 <= r < 8 && 0 <= c < 8 && b[r][c].Some? && b[r][c].value.color == color
      && t in PseudoLegal(b, Square(r, c), None) && OnBoard(t)
      ensures InCheck(AfterMove(b, CandidateMove(b, Square(r, c), t)), color)
    {
      assert Stuck(b, r, c, color);
      LegalMovesFilter(b, Square(r, c), None);
      PseudoLegalTargets(b, Square(r, c), None);
    }
  }
}
