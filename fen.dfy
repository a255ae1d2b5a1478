/**
  The board codec of the front end: FEN piece placement to board and back, piece letters,
  and UCI move text. Thrown errors become `Err` values.
*/
module Fen {
  import opened Wrappers
  import opened ChessTypes
  import opened Grid

  /** Why decoding fails: an unknown piece letter, a piece on a rank past the eighth, or a NaN coordinate. */
  datatype CodecError = InvalidPieceChar(c: char) | RankOutOfRange(row: int) | NotANumber

  const StartingFen: string := "rnbqkbnr/pppppppp/8/8/8/8/PPPPPPPP/RNBQKBNR w KQkq - 0 1"

  /** `createEmptyBoard`. */
  function EmptyBoard(): (b: Board)
    ensures forall r, c | 0 <= r < 8 && 0 <= c < 8 :: b[r][c] == None
  {
    seq(8, _ => seq(8, _ => None))
  }

  // ---------------------------------------------------------------- characters and numbers

  /** The regular-expression class `\d`: an ASCII decimal digit. */
  predicate IsDigit(c: char) {
    '0' <= c <= '9'
  }

  function DigitValue(c: char): (n: nat)
    requires IsDigit(c)
    ensures n < 10
  {
    (c as int - '0' as int) as nat
  }

  function DigitChar(n: nat): (c: char)
    requires n < 10
    ensures IsDigit(c) && DigitValue(c) == n
  {
    ('0' as int + n) as char
  }

  /** Decimal text of a natural number, as a template literal writes it. */
  function NatText(n: nat): (s: string)
    ensures |s| > 0 && forall c <- s :: IsDigit(c)
  {
    if n < 10 then [DigitChar(n)] else NatText(n / 10) + [DigitChar(n % 10)]
  }

  /** Decimal text of an integer, with a leading '-' when negative. */
  function IntText(i: int): (s: string)
    ensures |s| > 0
    ensures i < 0 <==> s[0] == '-'
  {
    if i < 0 then "-" + NatText(-i)
    else
      var s := NatText(i);
      assert IsDigit(s[0]);
      s
  }

  /** The letter of a piece type, lower case. */
  function KindLetter(kind: PieceType): char {
    match kind
    case Pawn => 'p'
    case Knight => 'n'
    case Bishop => 'b'
    case Rook => 'r'
    case Queen => 'q'
    case King => 'k'
  }

  /** ASCII upper case of a lower-case letter. */
  function Upper(c: char): char {
    if 'a' <= c <= 'z' then (c as int - 32) as char else c
  }

  /**
    `String.prototype.toLowerCase` restricted to what can reach a piece letter: ASCII upper
    case, and the KELVIN SIGN, whose lower case is 'k'.
  */
  function Lower(c: char): char {
    if 'A' <= c <= 'Z' then (c as int + 32) as char
    else if c == '\U{212A}' then 'k'
    else c
  }

  /** `getPieceTypeFromChar`: the type whose letter is the character's lower case, or `None` (the thrown error). */
  function PieceTypeFromChar(c: char): (kind: Option<PieceType>)
    ensures kind.Some? <==> Lower(c) in "pnbrqk"
    ensures kind.Some? ==> KindLetter(kind.value) == Lower(c)
  {
    match Lower(c)
    case 'p' => Some(Pawn)
    case 'n' => Some(Knight)
    case 'b' => Some(Bishop)
    case 'r' => Some(Rook)
    case 'q' => Some(Queen)
    case 'k' => Some(King)
    case _ => None
  }

  /**
    The colour `fenToBoard` gives a piece letter: white when the character is its own upper
    case. Among the letters `PieceTypeFromChar` accepts, only the lower-case ASCII ones are not.
  */
  function ColorFromChar(c: char): (color: Color)
    ensures PieceTypeFromChar(c).Some? ==> (color == Black <==> c in "pnbrqk")
  {
    if 'a' <= c <= 'z' then Black else White
  }

  /** `getCharFromPiece`: the type letter, upper case for white. */
  function CharFromPiece(p: Piece): (c: char)
    ensures 'A' <= c <= 'Z' <==> p.color == White
  {
    if p.color == White then Upper(KindLetter(p.kind)) else KindLetter(p.kind)
  }

  // ---------------------------------------------------------------- splitting text

  /** `String.prototype.split` on one separator character: always at least one part. */
  function Split(s: string, sep: char): (parts: seq<string>)
    ensures |parts| >= 1
    ensures forall part <- parts :: sep !in part
  {
    if |s| == 0 then [""]
    else
      var rest := Split(s[1..], sep);
      if s[0] == sep then [""] + rest else [[s[0]] + rest[0]] + rest[1..]
  }

  /** The parts joined with the separator between them: the inverse of `Split`. */
  function Join(parts: seq<string>, sep: char): string
    requires |parts| >= 1
  {
    if |parts| == 1 then parts[0] else parts[0] + [sep] + Join(parts[1..], sep)
  }

  /** `fen.split(' ')[0]`: the piece-placement field. */
  function FirstField(fen: string): string {
    Split(fen, ' ')[0]
  }

  // ---------------------------------------------------------------- FEN to board

  /**
    The board after reading the characters of one rank, starting at column `col`: a digit
    skips that many columns; any other character must be a piece letter, and a piece needs an
    existing rank (the source fails writing into a missing row) and lands on the board only
    when its column is below 8.
  */
  function DecodeRank(b: Board, row: int, s: string, col: nat): Result<Board, CodecError>
    decreases |s|
  {
    if |s| == 0 then Ok(b)
    else if IsDigit(s[0]) then DecodeRank(b, row, s[1..], col + DigitValue(s[0]))
    else match PieceTypeFromChar(s[0])
      case None => Err(InvalidPieceChar(s[0]))
      case Some(kind) =>
        if !(0 <= row < 8) then Err(RankOutOfRange(row))
        else
          var nb := if col < 8 then SetCell(b, row, col, Some(Piece(kind, ColorFromChar(s[0])))) else b;
          DecodeRank(nb, row, s[1..], col + 1)
  }

  /** The ranks from index `i` on, read one after another; the first failure stops the decoding. */
  function DecodeRanks(b: Board, rows: seq<string>, i: nat): Result<Board, CodecError>
    decreases |rows| - i
  {
    if i >= |rows| then Ok(b)
    else match DecodeRank(b, i, rows[i], 0)
      case Err(e) => Err(e)
      case Ok(nb) => DecodeRanks(nb, rows, i + 1)
  }

  /** `fenToBoard`: only the placement field is read, onto an empty board. */
  function DecodeFen(fen: string): Result<Board, CodecError> {
    DecodeRanks(EmptyBoard(), Split(FirstField(fen), '/'), 0)
  }

  /** Reading a digit at position `k` of a rank only advances the column. */
  lemma DecodeDigit(b: Board, row: int, s: string, k: nat, col: nat)
    requires k < |s| && IsDigit(s[k])
    ensures DecodeRank(b, row, s[k..], col) == DecodeRank(b, row, s[k + 1..], col + DigitValue(s[k]))
  {
    assert s[k..][0] == s[k] && s[k..][1..] == s[k + 1..];
  }

  /** Reading a piece letter at position `k` of an existing rank places the piece when its column is on the board. */
  lemma DecodePiece(b: Board, row: int, s: string, k: nat, col: nat, kind: PieceType)
    requires k < |s| && !IsDigit(s[k]) && PieceTypeFromChar(s[k]) == Some(kind) && 0 <= row < 8
    ensures DecodeRank(b, row, s[k..], col) ==
      DecodeRank(if col < 8 then SetCell(b, row, col, Some(Piece(kind, ColorFromChar(s[k])))) else b, row, s[k + 1..], col + 1)
  {
    assert s[k..][0] == s[k] && s[k..][1..] == s[k + 1..];
  }

  /** `fenToBoard`, on a mutable grid filled character by character. */
  method FenToBoard(fen: string) returns (r: Result<Board, CodecError>)
    ensures r == DecodeFen(fen)
  {
    var g := CopyToGrid(EmptyBoard());
    ghost var cur := EmptyBoard();
    var rows := Split(FirstField(fen), '/');
    var i := 0;
    while i < |rows|
      invariant 0 <= i <= |rows|
      invariant g.Length0 == 8 && g.Length1 == 8 && Snapshot(g) == cur
      invariant DecodeRanks(cur, rows, i) == DecodeFen(fen)
    {
      var rowStr := rows[i];
      ghost var goal := DecodeRank(cur, i, rowStr, 0);
      var col: nat := 0;
      var k := 0;
      while k < |rowStr|
        invariant 0 <= k <= |rowStr|
        invariant Snapshot(g) == cur
        invariant DecodeRank(cur, i, rowStr[k..], col) == goal
      {
        var ch := rowStr[k];
        if IsDigit(ch) {
          DecodeDigit(cur, i, rowStr, k, col);
          col := col + DigitValue(ch);
        } else {
          var kind := PieceTypeFromChar(ch);
          if kind.None? {
            return Err(InvalidPieceChar(ch));
          }
          if i >= 8 {
            return Err(RankOutOfRange(i));
          }
          var piece := Some(Piece(kind.value, ColorFromChar(ch)));
          DecodePiece(cur, i, rowStr, k, col, kind.value);
          if col < 8 {
            Write(g, i, col, piece);
            cur := SetCell(cur, i, col, piece);
          }
          col := col + 1;
        }
        k := k + 1;
      }
      i := i + 1;
    }
    return Ok(Snapshot(g));
  }

  // ---------------------------------------------------------------- board to FEN

  /** A pending run of empty squares: its count, or nothing when there is none. */
  function RunText(run: nat): string {
    if run > 0 then NatText(run) else ""
  }

  /** Text of a rank from column `col` on, with `run` empty squares already counted. */
  function RankText(cells: seq<Cell>, col: nat, run: nat): string
    requires |cells| == 8 && col <= 8
    decreases 8 - col
  {
    if col == 8 then RunText(run)
    else if cells[col].Some? then RunText(run) + [CharFromPiece(cells[col].value)] + RankText(cells, col + 1, 0)
    else RankText(cells, col + 1, run + 1)
  }

  /** The placement text of ranks 0 to `row` - 1, each followed by '/' except rank 7. */
  function PlacementUpTo(b: Board, row: nat): string
    requires row <= 8
  {
    if row == 0 then ""
    else PlacementUpTo(b, row - 1) + RankText(b[row - 1], 0, 0) + (if row - 1 < 7 then "/" else "")
  }

  /** The piece-placement field: the eight ranks from row 0 (Black's back rank) separated by '/'. */
  function Placement(b: Board): string {
    PlacementUpTo(b, 8)
  }

  function TurnText(turn: Color): string {
    if turn == White then "w" else "b"
  }

  /** The five fields after the placement, separated by spaces. */
  function Trailer(turn: Color, castling: string, enPassant: string, halfMove: int, fullMove: int): string {
    TurnText(turn) + " " + castling + " " + enPassant + " " + IntText(halfMove) + " " + IntText(fullMove)
  }

  /** The FEN text `boardToFen` produces: the placement field, a space and the trailing fields. */
  function EncodeFen(b: Board, turn: Color, castling: string, enPassant: string, halfMove: int, fullMove: int): string {
    Placement(b) + " " + Trailer(turn, castling, enPassant, halfMove, fullMove)
  }

  /** A piece at `col` ends the pending run and writes its letter. */
  lemma RankTextPiece(cells: seq<Cell>, col: nat, run: nat, fen: string)
    requires |cells| == 8 && col < 8 && cells[col].Some?
    ensures fen + RankText(cells, col, run)
         == (fen + RunText(run) + [CharFromPiece(cells[col].value)]) + RankText(cells, col + 1, 0)
  {
  }

  /** `boardToFen`: scans the board row by row, counting runs of empty squares. */
  method BoardToFen(b: Board, turn: Color := White, castling: string := "-", enPassant: string := "-",
                    halfMove: int := 0, fullMove: int := 1) returns (text: string)
    ensures text == EncodeFen(b, turn, castling, enPassant, halfMove, fullMove)
  {
    var fen := "";
    for row := 0 to 8
      invariant fen == PlacementUpTo(b, row)
    {
      ghost var goal := fen + RankText(b[row], 0, 0);
      var emptyCount := 0;
      for col := 0 to 8
        invariant emptyCount <= col
        invariant fen + RankText(b[row], col, emptyCount) == goal
      {
        var piece := b[row][col];
        if piece.Some? {
          ghost var fen0, run0 := fen, emptyCount;
          if emptyCount > 0 {
            fen := fen + NatText(emptyCount);
            emptyCount := 0;
          }
          fen := fen + [CharFromPiece(piece.value)];
          assert fen + RankText(b[row], col + 1, 0) == goal by {
            RankTextPiece(b[row], col, run0, fen0);
            assert fen == fen0 + RunText(run0) + [CharFromPiece(piece.value)];
          }
        } else {
          emptyCount := emptyCount + 1;
        }
      }
      if emptyCount > 0 {
        fen := fen + NatText(emptyCount);
      }
      if row < 7 {
        fen := fen + "/";
      }
    }
    text := fen + " " + Trailer(turn, castling, enPassant, halfMove, fullMove);
  }

  // ---------------------------------------------------------------- UCI moves

  /**
    `uciToMove`: file letter minus 'a' gives the column and 8 minus the rank digit the row; a
    fifth character must be a piece letter (the promotion). A missing character or a rank
    that is not a digit makes a NaN coordinate, reported as `NotANumber`.
  */
  function UciToMove(uci: string): (r: Result<Move, CodecError>)
    ensures r.Ok? <==>
      && |uci| >= 4 && IsDigit(uci[1]) && IsDigit(uci[3])
      && (|uci| > 4 ==> PieceTypeFromChar(uci[4]).Some?)
    ensures r.Ok? ==> !r.value.isCastling
  {
    if |uci| > 4 && PieceTypeFromChar(uci[4]).None? then Err(InvalidPieceChar(uci[4]))
    else if |uci| < 4 || !IsDigit(uci[1]) || !IsDigit(uci[3]) then Err(NotANumber)
    else
      var promotion := if |uci| > 4 then PieceTypeFromChar(uci[4]) else None;
      Ok(Move(Square(8 - DigitValue(uci[1]), uci[0] as int - 'a' as int),
              Square(8 - DigitValue(uci[3]), uci[2] as int - 'a' as int),
              promotion, false))
  }

  // ---------------------------------------------------------------- the starting position

  const BackRank: seq<PieceType> := [Rook, Knight, Bishop, Queen, King, Bishop, Knight, Rook]

  /** A rank holding `x` on every square. */
  function Filled(x: Cell): (cells: seq<Cell>)
    ensures |cells| == 8 && forall c | 0 <= c < 8 :: cells[c] == x
  {
    seq(8, _ => x)
  }

  /**
    A back rank of `color`: rook, knight, bishop, queen, king, bishop, knight, rook. The cells
    are listed one by one, rather than built from `BackRank`, because the verifier unfolds an
    explicit list far more cheaply; the ensures ties the two together.
  */
  function BackRankCells(color: Color): (cells: seq<Cell>)
    ensures |cells| == 8 && forall c | 0 <= c < 8 :: cells[c] == Some(Piece(BackRank[c], color))
  {
    [Some(Piece(Rook, color)), Some(Piece(Knight, color)), Some(Piece(Bishop, color)), Some(Piece(Queen, color)),
     Some(Piece(King, color)), Some(Piece(Bishop, color)), Some(Piece(Knight, color)), Some(Piece(Rook, color))]
  }

  /**
    `initialBoard`, the standard starting position: black on rows 0 and 1, white on rows 6 and 7.
    `FenLemmas.InitialBoardDecodes` shows it is what `fenToBoard(STARTING_FEN)` gives.
  */
  function InitialBoard(): (b: Board)
    ensures forall c | 0 <= c < 8 ::
      && b[0][c] == Some(Piece(BackRank[c], Black)) && b[1][c] == Some(Piece(Pawn, Black))
      && b[6][c] == Some(Piece(Pawn, White)) && b[7][c] == Some(Piece(BackRank[c], White))
    ensures forall r, c | 2 <= r < 6 && 0 <= c < 8 :: b[r][c] == None
  {
    [BackRankCells(Black), Filled(Some(Piece(Pawn, Black))), Filled(None), Filled(None),
     Filled(None), Filled(None), Filled(Some(Piece(Pawn, White))), BackRankCells(White)]
  }

}
