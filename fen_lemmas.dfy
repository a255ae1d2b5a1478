/**
  Properties of the board codec in `Fen`: the piece-letter mapping, splitting, the shape of
  the placement field, the encode/decode round trip, UCI coordinates and the starting position.
*/
module FenLemmas {
  import opened Wrappers
  import opened ChessTypes
  import opened Grid
  import opened Fen

  // ---------------------------------------------------------------- piece letters

  /**
    `getPieceTypeFromChar` accepts exactly the six letters in either case, plus the KELVIN
    SIGN, which `toLowerCase` turns into 'k'.
  */
  lemma PieceLetters(c: char)
    ensures PieceTypeFromChar(c).Some? <==> c in "pnbrqkPNBRQK" || c == '\U{212A}'
  {
    if 'A' <= c <= 'Z' {
      assert Lower(c) in "pnbrqk" <==> c in "PNBRQK";
    }
  }

  /**
    `getCharFromPiece` gives the type letter, upper case exactly for white, and reading that
    letter back as `fenToBoard` does gives the same piece; the letter is never a digit, '/'
    or ' '.
  */
  lemma CharRoundTrip(p: Piece)
    ensures var c := CharFromPiece(p);
      && Lower(c) == KindLetter(p.kind)
      && ('A' <= c <= 'Z' <==> p.color == White)
      && PieceTypeFromChar(c) == Some(p.kind) && ColorFromChar(c) == p.color
      && !IsDigit(c) && c != '/' && c != ' '
  {
    match p.kind
    case Pawn =>
    case Knight =>
    case Bishop =>
    case Rook =>
    case Queen =>
    case King =>
  }

  /** Conversely, an ASCII piece letter is the letter of the piece it decodes to. */
  lemma LetterRoundTrip(c: char)
    requires PieceTypeFromChar(c).Some? && c != '\U{212A}'
    ensures CharFromPiece(Piece(PieceTypeFromChar(c).value, ColorFromChar(c))) == c
  {
    PieceLetters(c);
  }

  // ---------------------------------------------------------------- split and join

  /** Joining the parts of a split gives back the text. */
  lemma {:induction false} SplitJoin(s: string, sep: char)
    ensures Join(Split(s, sep), sep) == s
  {
    if |s| > 0 {
      SplitJoin(s[1..], sep);
      var rest := Split(s[1..], sep);
      if s[0] == sep {
        assert s == [sep] + s[1..];
      } else if |rest| == 1 {
        assert s == [s[0]] + s[1..];
      } else {
        assert rest == [rest[0]] + rest[1..];
        assert s == [s[0]] + s[1..];
      }
    }
  }

  /** A text without the separator splits into itself. */
  lemma {:induction false} SplitNone(s: string, sep: char)
    requires sep !in s
    ensures Split(s, sep) == [s]
  {
    if |s| > 0 {
      SplitNone(s[1..], sep);
      assert s == [s[0]] + s[1..];
    }
  }

  /** A separator ends the first part. */
  lemma {:induction false} SplitAt(a: string, sep: char, t: string)
    requires sep !in a
    ensures Split(a + [sep] + t, sep) == [a] + Split(t, sep)
  {
    if |a| == 0 {
      assert a + [sep] + t == [sep] + t;
      assert ([sep] + t)[1..] == t;
    } else {
      SplitAt(a[1..], sep, t);
      assert (a + [sep] + t)[1..] == a[1..] + [sep] + t;
      assert [a[0]] + a[1..] == a;
    }
  }

  /** Splitting parts joined by a separator they do not contain gives back the parts. */
  lemma {:induction false} JoinSplit(parts: seq<string>, sep: char)
    requires |parts| >= 1 && forall p <- parts :: sep !in p
    ensures Split(Join(parts, sep), sep) == parts
  {
    if |parts| == 1 {
      SplitNone(parts[0], sep);
    } else {
      JoinSplit(parts[1..], sep);
      SplitAt(parts[0], sep, Join(parts[1..], sep));
      assert parts == [parts[0]] + parts[1..];
    }
  }

  /** Joining one more part at the end. */
  lemma {:induction false} JoinSnoc(parts: seq<string>, x: string, sep: char)
    requires |parts| >= 1
    ensures Join(parts + [x], sep) == Join(parts, sep) + [sep] + x
  {
    if |parts| > 1 {
      JoinSnoc(parts[1..], x, sep);
      assert (parts + [x])[1..] == parts[1..] + [x];
    }
  }

  /** `fen.split(' ')[0]` is the text before the first space. */
  lemma FirstFieldOf(a: string, t: string)
    requires ' ' !in a
    ensures FirstField(a + " " + t) == a
  {
    SplitAt(a, ' ', t);
  }

  /** Decoding reads only the text before the first space. */
  lemma DecodeFirstField(a: string, t: string)
    requires ' ' !in a
    ensures DecodeFen(a + " " + t) == DecodeFen(a)
  {
    FirstFieldOf(a, t);
    SplitNone(a, ' ');
  }

  // ---------------------------------------------------------------- the placement field

  /** The texts of the eight ranks, row 0 first. */
  function Ranks(b: Board): (ranks: seq<string>)
    ensures |ranks| == 8
  {
    seq(8, r requires 0 <= r < 8 => RankText(b[r], 0, 0))
  }

  /** The columns a rank text accounts for, as `fenToBoard` counts them: a digit its value, any other character one. */
  function Width(s: string): nat {
    if |s| == 0 then 0 else (if IsDigit(s[0]) then DigitValue(s[0]) else 1) + Width(s[1..])
  }

  /** Every digit is 1 to 8 and no two digits are adjacent. */
  predicate SingleDigitRuns(s: string) {
    forall i | 0 <= i < |s| && IsDigit(s[i]) :: 1 <= DigitValue(s[i]) <= 8 && (i + 1 < |s| ==> !IsDigit(s[i + 1]))
  }

  lemma {:induction false} WidthAppend(s: string, t: string)
    ensures Width(s + t) == Width(s) + Width(t)
  {
    if |s| == 0 {
      assert s + t == t;
    } else {
      WidthAppend(s[1..], t);
      assert (s + t)[0] == s[0] && (s + t)[1..] == s[1..] + t;
    }
  }

  /** A rank text holds only digits and piece letters. */
  lemma {:induction false} RankTextChars(cells: seq<Cell>, col: nat, run: nat)
    requires |cells| == 8 && col <= 8
    ensures forall ch <- RankText(cells, col, run) :: IsDigit(ch) || PieceTypeFromChar(ch).Some?
    decreases 8 - col
  {
    if col < 8 {
      RankTextChars(cells, col + 1, if cells[col].Some? then 0 else run + 1);
      if cells[col].Some? {
        CharRoundTrip(cells[col].value);
      }
    }
  }

  /** A rank text with `run` pending empty squares accounts for the rest of the rank plus the run. */
  lemma {:induction false} RankTextWidth(cells: seq<Cell>, col: nat, run: nat)
    requires |cells| == 8 && col <= 8 && run <= col
    ensures Width(RankText(cells, col, run)) == 8 - col + run
    decreases 8 - col
  {
    if col == 8 {
      assert run > 0 ==> RankText(cells, col, run) == [DigitChar(run)];
    } else if cells[col].Some? {
      RankTextWidth(cells, col + 1, 0);
      var c := [CharFromPiece(cells[col].value)];
      CharRoundTrip(cells[col].value);
      WidthAppend(RunText(run) + c, RankText(cells, col + 1, 0));
      WidthAppend(RunText(run), c);
      assert run > 0 ==> RunText(run) == [DigitChar(run)];
    } else {
      RankTextWidth(cells, col + 1, run + 1);
    }
  }

  /** A run digit, a piece letter and well-formed text make well-formed text. */
  lemma RunsJoin(run: nat, c: char, t: string)
    requires run <= 8 && !IsDigit(c) && SingleDigitRuns(t)
    ensures SingleDigitRuns(RunText(run) + [c] + t)
  {
    var s := RunText(run) + [c] + t;
    var k := |RunText(run)|;
    assert run > 0 ==> RunText(run) == [DigitChar(run)];
    forall i | 0 <= i < |s| && IsDigit(s[i])
      ensures 1 <= DigitValue(s[i]) <= 8 && (i + 1 < |s| ==> !IsDigit(s[i + 1]))
    {
      if i > k {
        assert s[i] == t[i - k - 1];
        assert i + 1 < |s| ==> s[i + 1] == t[i - k];
      }
    }
  }

  /** Each run of empty squares in a rank text is one digit 1 to 8, followed by a piece letter or the end. */
  lemma {:induction false} RankTextRuns(cells: seq<Cell>, col: nat, run: nat)
    requires |cells| == 8 && col <= 8 && run <= col
    ensures SingleDigitRuns(RankText(cells, col, run))
    decreases 8 - col
  {
    if col == 8 {
      assert run > 0 ==> RankText(cells, col, run) == [DigitChar(run)];
    } else if cells[col].Some? {
      RankTextRuns(cells, col + 1, 0);
      CharRoundTrip(cells[col].value);
      RunsJoin(run, CharFromPiece(cells[col].value), RankText(cells, col + 1, 0));
    } else {
      RankTextRuns(cells, col + 1, run + 1);
    }
  }

  lemma SliceSnoc<T>(s: seq<T>, n: nat)
    requires 1 <= n <= |s|
    ensures s[..n - 1] + [s[n - 1]] == s[..n]
  {
  }

  lemma {:induction false} PlacementUpToJoin(b: Board, row: nat)
    requires 1 <= row <= 8
    ensures PlacementUpTo(b, row) == Join(Ranks(b)[..row], '/') + (if row < 8 then "/" else "")
  {
    var ranks := Ranks(b);
    if row == 1 {
      assert ranks[..1] == [RankText(b[0], 0, 0)];
    } else {
      var prefix, last := ranks[..row - 1], ranks[row - 1];
      var sep := if row < 8 then "/" else "";
      PlacementUpToJoin(b, row - 1);
      SliceSnoc(ranks, row);
      JoinSnoc(prefix, last, '/');
      calc {
        PlacementUpTo(b, row);
        PlacementUpTo(b, row - 1) + last + sep;
        Join(prefix, '/') + "/" + last + sep;
        Join(prefix + [last], '/') + sep;
      }
    }
  }

  lemma {:induction false} PlacementUpToNoSpace(b: Board, row: nat)
    requires row <= 8
    ensures ' ' !in PlacementUpTo(b, row)
  {
    if row > 0 {
      PlacementUpToNoSpace(b, row - 1);
      RankTextChars(b[row - 1], 0, 0);
    }
  }

  /**
    The placement field of `boardToFen` is eight rank groups joined by '/'; each group
    accounts for exactly 8 columns and writes each run of empty squares as one digit 1 to 8,
    never two digits in a row.
  */
  lemma PlacementShape(b: Board)
    ensures Placement(b) == Join(Ranks(b), '/')
    ensures var groups := Split(Placement(b), '/');
      |groups| == 8 && groups == Ranks(b)
      && forall i | 0 <= i < 8 :: Width(groups[i]) == 8 && SingleDigitRuns(groups[i])
    ensures ' ' !in Placement(b)
  {
    PlacementUpToJoin(b, 8);
    PlacementUpToNoSpace(b, 8);
    assert Ranks(b)[..8] == Ranks(b);
    forall i | 0 <= i < 8
      ensures '/' !in Ranks(b)[i] && Width(Ranks(b)[i]) == 8 && SingleDigitRuns(Ranks(b)[i])
    {
      RankTextChars(b[i], 0, 0);
      RankTextWidth(b[i], 0, 0);
      RankTextRuns(b[i], 0, 0);
    }
    JoinSplit(Ranks(b), '/');
  }

  /** The default trailing fields of `boardToFen` are `w - - 0 1`. */
  lemma DefaultTrailer()
    ensures Trailer(White, "-", "-", 0, 1) == "w - - 0 1"
  {
    assert IntText(0) == "0" && IntText(1) == "1";
  }

  // ---------------------------------------------------------------- the round trip

  /** `acc` with rank `row` from column `from` on taken from `cells`. */
  function Fill(acc: Board, row: nat, cells: seq<Cell>, from: nat): (nb: Board)
    requires row < 8 && |cells| == 8 && from <= 8
    ensures forall i, j | 0 <= i < 8 && 0 <= j < 8 :: nb[i][j] == if i == row && j >= from then cells[j] else acc[i][j]
  {
    acc[row := acc[row][..from] + cells[from..]]
  }

  /** A pending run, written as its digit, only advances the column by the run's length. */
  lemma DecodeRun(acc: Board, row: nat, run: nat, rest: string, col: nat)
    requires run <= col && run <= 8
    ensures DecodeRank(acc, row, RunText(run) + rest, col - run) == DecodeRank(acc, row, rest, col)
  {
    if run > 0 {
      var d := DigitChar(run);
      assert RunText(run) + rest == [d] + rest;
      assert ([d] + rest)[0] == d && ([d] + rest)[1..] == rest;
    } else {
      assert RunText(run) + rest == rest;
    }
  }

  /** A piece's letter places that piece and advances the column by one. */
  lemma DecodeLetter(acc: Board, row: nat, p: Piece, rest: string, col: nat)
    requires row < 8 && col < 8
    ensures DecodeRank(acc, row, [CharFromPiece(p)] + rest, col) == DecodeRank(SetCell(acc, row, col, Some(p)), row, rest, col + 1)
  {
    CharRoundTrip(p);
    var ch := CharFromPiece(p);
    assert ([ch] + rest)[0] == ch && ([ch] + rest)[1..] == rest;
  }

  /** Placing the piece of column `col` and filling after it is filling from the start of the run before it. */
  lemma FillStep(acc: Board, row: nat, cells: seq<Cell>, col: nat, run: nat)
    requires row < 8 && |cells| == 8 && run <= col < 8 && cells[col].Some?
    requires forall j | col - run <= j < 8 :: acc[row][j] == None
    requires forall j | col - run <= j < col :: cells[j] == None
    ensures Fill(SetCell(acc, row, col, cells[col]), row, cells, col + 1) == Fill(acc, row, cells, col - run)
  {
    SameBoard(Fill(SetCell(acc, row, col, cells[col]), row, cells, col + 1), Fill(acc, row, cells, col - run));
  }

  /** The last pending run of a rank decodes to no change. */
  lemma DecodeRankEnd(acc: Board, row: nat, cells: seq<Cell>, run: nat)
    requires row < 8 && |cells| == 8 && run <= 8
    requires forall j | 8 - run <= j < 8 :: acc[row][j] == None
    requires forall j | 8 - run <= j < 8 :: cells[j] == None
    ensures DecodeRank(acc, row, RankText(cells, 8, run), 8 - run) == Ok(Fill(acc, row, cells, 8 - run))
  {
    DecodeRun(acc, row, run, "", 8);
    assert RunText(run) + "" == RankText(cells, 8, run);
    SameBoard(acc, Fill(acc, row, cells, 8 - run));
  }

  /** A pending run followed by a piece decodes as the run, the piece, and then the rest of the rank. */
  lemma DecodeRankPiece(acc: Board, row: nat, cells: seq<Cell>, col: nat, run: nat)
    requires row < 8 && |cells| == 8 && run <= col < 8 && cells[col].Some?
    requires forall j | col - run <= j < 8 :: acc[row][j] == None
    requires forall j | col - run <= j < col :: cells[j] == None
    requires var next := SetCell(acc, row, col, cells[col]);
      DecodeRank(next, row, RankText(cells, col + 1, 0), col + 1) == Ok(Fill(next, row, cells, col + 1))
    ensures DecodeRank(acc, row, RankText(cells, col, run), col - run) == Ok(Fill(acc, row, cells, col - run))
  {
    var p := cells[col].value;
    var t := RankText(cells, col + 1, 0);
    DecodeLetter(acc, row, p, t, col);
    DecodeRun(acc, row, run, [CharFromPiece(p)] + t, col);
    assert RankText(cells, col, run) == RunText(run) + ([CharFromPiece(p)] + t);
    FillStep(acc, row, cells, col, run);
  }

  /**
    Decoding the text of a rank, from the column where its pending run of empty squares
    started, onto a rank that is empty from there on, fills the rank from `cells`.
  */
  lemma {:induction false} DecodeRankText(acc: Board, row: nat, cells: seq<Cell>, col: nat, run: nat)
    requires row < 8 && |cells| == 8 && run <= col <= 8
    requires forall j | col - run <= j < 8 :: acc[row][j] == None
    requires forall j | col - run <= j < col :: cells[j] == None
    ensures DecodeRank(acc, row, RankText(cells, col, run), col - run) == Ok(Fill(acc, row, cells, col - run))
    decreases 8 - col
  {
    if col == 8 {
      DecodeRankEnd(acc, row, cells, run);
    } else if cells[col].Some? {
      DecodeRankText(SetCell(acc, row, col, cells[col]), row, cells, col + 1, 0);
      DecodeRankPiece(acc, row, cells, col, run);
    } else {
      DecodeRankText(acc, row, cells, col + 1, run + 1);
      assert RankText(cells, col, run) == RankText(cells, col + 1, run + 1);
    }
  }

  /** Decoding the rank texts of `b` from rank `i` on, onto a board holding `b`'s ranks before `i` and empty after, gives `b`. */
  lemma {:induction false} DecodeRanksText(acc: Board, b: Board, i: nat)
    requires i <= 8
    requires forall r, c | 0 <= r < i && 0 <= c < 8 :: acc[r][c] == b[r][c]
    requires forall r, c | i <= r < 8 && 0 <= c < 8 :: acc[r][c] == None
    ensures DecodeRanks(acc, Ranks(b), i) == Ok(b)
    decreases 8 - i
  {
    if i == 8 {
      SameBoard(acc, b);
    } else {
      var ranks := Ranks(b);
      assert ranks[i] == RankText(b[i], 0, 0);
      DecodeRankText(acc, i, b[i], 0, 0);
      var next := Fill(acc, i, b[i], 0);
      assert DecodeRanks(acc, ranks, i) == DecodeRanks(next, ranks, i + 1);
      assert forall r, c | 0 <= r < i + 1 && 0 <= c < 8 :: next[r][c] == b[r][c];
      DecodeRanksText(next, b, i + 1);
    }
  }

  /** Round trip: decoding the FEN text of any board gives that board back, whatever the trailing fields. */
  lemma RoundTrip(b: Board, turn: Color, castling: string, enPassant: string, halfMove: int, fullMove: int)
    ensures DecodeFen(EncodeFen(b, turn, castling, enPassant, halfMove, fullMove)) == Ok(b)
  {
    PlacementShape(b);
    DecodeFirstField(Placement(b), Trailer(turn, castling, enPassant, halfMove, fullMove));
    SplitNone(Placement(b), ' ');
    DecodeRanksText(EmptyBoard(), b, 0);
  }

  // ---------------------------------------------------------------- UCI moves

  /** The UCI name of an on-board square: file letter 'a' to 'h' for columns 0 to 7, rank digit 8 to 1 for rows 0 to 7. */
  function SquareName(sq: Square): string
    requires 0 <= sq.row < 8 && 0 <= sq.col < 8
  {
    [('a' as int + sq.col) as char, DigitChar(8 - sq.row)]
  }

  /** The UCI text of a move: both square names, then the promotion letter if there is one. */
  function MoveText(m: Move): string
    requires 0 <= m.from.row < 8 && 0 <= m.from.col < 8 && 0 <= m.to.row < 8 && 0 <= m.to.col < 8
  {
    SquareName(m.from) + SquareName(m.to) + (if m.promotion.Some? then [KindLetter(m.promotion.value)] else "")
  }

  /** `uciToMove` inverts `MoveText` on every on-board move that is not flagged as castling. */
  lemma UciRoundTrip(m: Move)
    requires 0 <= m.from.row < 8 && 0 <= m.from.col < 8 && 0 <= m.to.row < 8 && 0 <= m.to.col < 8
    requires !m.isCastling
    ensures UciToMove(MoveText(m)) == Ok(m)
  {
    var u := MoveText(m);
    assert u[0] == ('a' as int + m.from.col) as char && u[1] == DigitChar(8 - m.from.row);
    assert u[2] == ('a' as int + m.to.col) as char && u[3] == DigitChar(8 - m.to.row);
    if m.promotion.Some? {
      assert u[4] == KindLetter(m.promotion.value);
      assert PieceTypeFromChar(u[4]) == m.promotion by {
        match m.promotion.value
        case Pawn =>
        case Knight =>
        case Bishop =>
        case Rook =>
        case Queen =>
        case King =>
      }
    }
  }

  /**
    `uciToMove`: `promotion` is present iff the token is longer than 4 characters; a bad
    fifth character is reported before anything else, and a token shorter than 4 characters
    or with a non-digit rank gives a NaN coordinate. The coordinates are the file's offset
    from 'a' and 8 minus the rank digit.
  */
  lemma UciFields(uci: string)
    ensures var r := UciToMove(uci);
      && (|uci| > 4 && PieceTypeFromChar(uci[4]).None? ==> r == Err(InvalidPieceChar(uci[4])))
      && (r == Err(NotANumber) <==>
            !(|uci| > 4 && PieceTypeFromChar(uci[4]).None?) && (|uci| < 4 || !IsDigit(uci[1]) || !IsDigit(uci[3])))
      && (r.Ok? ==>
            && |uci| >= 4 && IsDigit(uci[1]) && IsDigit(uci[3])
            && r.value.from == Square(8 - DigitValue(uci[1]), uci[0] as int - 'a' as int)
            && r.value.to == Square(8 - DigitValue(uci[3]), uci[2] as int - 'a' as int)
            && (r.value.promotion.Some? <==> |uci| > 4)
            && (|uci| > 4 ==> KindLetter(r.value.promotion.value) == Lower(uci[4]))
            && !r.value.isCastling)
  {
  }

  // ---------------------------------------------------------------- the starting position

  lemma BlackBackRankText(cells: seq<Cell>)
    requires |cells| == 8
    requires && cells[0] == Some(Piece(Rook, Black)) && cells[1] == Some(Piece(Knight, Black))
             && cells[2] == Some(Piece(Bishop, Black)) && cells[3] == Some(Piece(Queen, Black))
             && cells[4] == Some(Piece(King, Black)) && cells[5] == Some(Piece(Bishop, Black))
             && cells[6] == Some(Piece(Knight, Black)) && cells[7] == Some(Piece(Rook, Black))
    ensures RankText(cells, 0, 0) == "rnbqkbnr"
  {
    assert RankText(cells, 8, 0) == "";
    assert RankText(cells, 7, 0) == "r";
    assert RankText(cells, 6, 0) == "nr";
    assert RankText(cells, 5, 0) == "bnr";
    assert RankText(cells, 4, 0) == "kbnr";
    assert RankText(cells, 3, 0) == "qkbnr";
    assert RankText(cells, 2, 0) == "bqkbnr";
    assert RankText(cells, 1, 0) == "nbqkbnr";
    assert RankText(cells, 0, 0) == "rnbqkbnr";
  }

  lemma WhiteBackRankText(cells: seq<Cell>)
    requires |cells| == 8
    requires && cells[0] == Some(Piece(Rook, White)) && cells[1] == Some(Piece(Knight, White))
             && cells[2] == Some(Piece(Bishop, White)) && cells[3] == Some(Piece(Queen, White))
             && cells[4] == Some(Piece(King, White)) && cells[5] == Some(Piece(Bishop, White))
             && cells[6] == Some(Piece(Knight, White)) && cells[7] == Some(Piece(Rook, White))
    ensures RankText(cells, 0, 0) == "RNBQKBNR"
  {
    assert RankText(cells, 8, 0) == "";
    assert RankText(cells, 7, 0) == "R";
    assert RankText(cells, 6, 0) == "NR";
    assert RankText(cells, 5, 0) == "BNR";
    assert RankText(cells, 4, 0) == "KBNR";
    assert RankText(cells, 3, 0) == "QKBNR";
    assert RankText(cells, 2, 0) == "BQKBNR";
    assert RankText(cells, 1, 0) == "NBQKBNR";
    assert RankText(cells, 0, 0) == "RNBQKBNR";
  }

  lemma PawnRankText(cells: seq<Cell>, color: Color)
    requires |cells| == 8 && forall c | 0 <= c < 8 :: cells[c] == Some(Piece(Pawn, color))
    ensures RankText(cells, 0, 0) == if color == White then "PPPPPPPP" else "pppppppp"
  {
  }

  lemma EmptyRankText(cells: seq<Cell>)
    requires |cells| == 8 && forall c | 0 <= c < 8 :: cells[c] == None
    ensures RankText(cells, 0, 0) == "8"
  {
    assert RankText(cells, 0, 0) == RankText(cells, 8, 8);
  }

  lemma PlacementLiteral()
    ensures "" + "rnbqkbnr" + "/" + "pppppppp" + "/" + "8" + "/" + "8" + "/" + "8" + "/" + "8" + "/" + "PPPPPPPP" + "/" + "RNBQKBNR" + ""
         == "rnbqkbnr/pppppppp/8/8/8/8/PPPPPPPP/RNBQKBNR"
  {
    var a := "" + "rnbqkbnr" + "/" + "pppppppp" + "/";
    assert a == "rnbqkbnr/pppppppp/";
    var b := a + "8" + "/" + "8" + "/" + "8" + "/" + "8" + "/";
    assert b == "rnbqkbnr/pppppppp/8/8/8/8/";
  }

  /** The placement field is the eight rank texts separated by '/'. */
  lemma PlacementRows(b: Board)
    ensures Placement(b)
         == "" + RankText(b[0], 0, 0) + "/" + RankText(b[1], 0, 0) + "/" + RankText(b[2], 0, 0) + "/"
            + RankText(b[3], 0, 0) + "/" + RankText(b[4], 0, 0) + "/" + RankText(b[5], 0, 0) + "/"
            + RankText(b[6], 0, 0) + "/" + RankText(b[7], 0, 0) + ""
  {
    assert PlacementUpTo(b, 2) == PlacementUpTo(b, 0) + RankText(b[0], 0, 0) + "/" + RankText(b[1], 0, 0) + "/";
    assert PlacementUpTo(b, 4) == PlacementUpTo(b, 2) + RankText(b[2], 0, 0) + "/" + RankText(b[3], 0, 0) + "/";
    assert PlacementUpTo(b, 6) == PlacementUpTo(b, 4) + RankText(b[4], 0, 0) + "/" + RankText(b[5], 0, 0) + "/";
    assert PlacementUpTo(b, 8) == PlacementUpTo(b, 6) + RankText(b[6], 0, 0) + "/" + RankText(b[7], 0, 0) + "";
  }

  /** Any board laid out like the starting position encodes to the starting placement field. */
  lemma StartLayoutPlacement(b: Board)
    requires forall c | 0 <= c < 8 ::
      && b[0][c] == Some(Piece(BackRank[c], Black)) && b[1][c] == Some(Piece(Pawn, Black))
      && b[6][c] == Some(Piece(Pawn, White)) && b[7][c] == Some(Piece(BackRank[c], White))
    requires forall r, c | 2 <= r < 6 && 0 <= c < 8 :: b[r][c] == None
    ensures Placement(b) == "rnbqkbnr/pppppppp/8/8/8/8/PPPPPPPP/RNBQKBNR"
  {
    PlacementRows(b);
    BlackBackRankText(b[0]);
    PawnRankText(b[1], Black);
    EmptyRankText(b[2]);
    EmptyRankText(b[3]);
    EmptyRankText(b[4]);
    EmptyRankText(b[5]);
    PawnRankText(b[6], White);
    WhiteBackRankText(b[7]);
    PlacementLiteral();
  }

  /** Re-encoding the starting position gives the starting placement field. */
  lemma StartingPlacement()
    ensures Placement(InitialBoard()) == "rnbqkbnr/pppppppp/8/8/8/8/PPPPPPPP/RNBQKBNR"
  {
    StartLayoutPlacement(InitialBoard());
  }

  lemma StartingTrailer()
    ensures Trailer(White, "KQkq", "-", 0, 1) == "w KQkq - 0 1"
  {
    assert IntText(0) == "0" && IntText(1) == "1";
  }

  lemma StartingFenLiteral()
    ensures "rnbqkbnr/pppppppp/8/8/8/8/PPPPPPPP/RNBQKBNR" + " " + "w KQkq - 0 1" == StartingFen
  {
  }

  /** `boardToFen` of the starting position with white to move and all castling rights is `STARTING_FEN`. */
  lemma StartingFenEncodes()
    ensures EncodeFen(InitialBoard(), White, "KQkq", "-", 0, 1) == StartingFen
  {
    StartingPlacement();
    StartingTrailer();
    StartingFenLiteral();
  }

  /**
    Decoding `STARTING_FEN` gives the starting position. The text is a parameter rather than the
    constant itself so that the verifier does not try to evaluate the decoder on the literal.
  */
  lemma StartingFenDecodes(fen: string)
    requires fen == StartingFen
    ensures DecodeFen(fen) == Ok(InitialBoard())
  {
    StartingFenEncodes();
    RoundTrip(InitialBoard(), White, "KQkq", "-", 0, 1);
  }

  /** Decoding `STARTING_FEN` succeeds with `initialBoard`. */
  lemma InitialBoardDecodes()
    ensures DecodeFen(StartingFen) == Ok(InitialBoard())
  {
    StartingFenDecodes(StartingFen);
  }
}
