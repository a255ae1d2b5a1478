/** Option and Result, used for the source's `null` and its thrown errors. */
module Wrappers {
  datatype Option<+T> = None | Some(value: T) {
    function GetOr(default: T): T {
      match this
      case Some(v) => v
      case None => default
    }
  }

  datatype Result<+T, +E> = Ok(value: T) | Err(error: E)
}

/** The value types of the chess front end: colours, pieces, squares, moves, castling rights. */
module ChessTypes {
  import opened Wrappers

  datatype Color = White | Black

  datatype PieceType = Pawn | Knight | Bishop | Rook | Queen | King

  datatype Piece = Piece(kind: PieceType, color: Color)

  /** One board cell: a piece or `null`. */
  type Cell = Option<Piece>

  predicate IsBoard(b: seq<seq<Cell>>) {
    |b| == 8 && forall r | 0 <= r < 8 :: |b[r]| == 8
  }

  /** The board is always an 8x8 grid; row 0 is Black's back rank, row 7 White's. */
  type Board = b: seq<seq<Cell>> | IsBoard(b)
    witness seq(8, _ => seq(8, _ => None))

  /** A square may lie off the board: the generators build such squares before testing them. */
  datatype Square = Square(row: int, col: int)

  /** An absent `promotion` is `None`; an absent `isCastling` is `false`. */
  datatype Move = Move(from: Square, to: Square, promotion: Option<PieceType>, isCastling: bool)

  /** King-side (`k`) and queen-side (`q`) castling availability of one colour. */
  datatype SideRights = SideRights(k: bool, q: bool)

  datatype CastlingRights = CastlingRights(w: SideRights, b: SideRights)

  function Opponent(c: Color): Color {
    if c == White then Black else White
  }

  function RightsOf(rights: CastlingRights, c: Color): SideRights {
    if c == White then rights.w else rights.b
  }

  function WithRightsOf(rights: CastlingRights, c: Color, side: SideRights): CastlingRights {
    if c == White then rights.(w := side) else rights.(b := side)
  }
}

/** Cell-level access to boards, and the mutable 8x8 grid the source copies boards into. */
module Grid {
  import opened Wrappers
  import opened ChessTypes

  /** The board with one cell replaced. */
  function SetCell(b: Board, r: int, c: int, x: Cell): (nb: Board)
    requires 0 <= r < 8 && 0 <= c < 8
    ensures nb[r][c] == x
    ensures forall i, j | 0 <= i < 8 && 0 <= j < 8 && (i != r || j != c) :: nb[i][j] == b[i][j]
  {
    b[r := b[r][c := x]]
  }

  /** Two boards that agree on every cell are equal. */
  lemma SameBoard(a: Board, b: Board)
    requires forall i, j | 0 <= i < 8 && 0 <= j < 8 :: a[i][j] == b[i][j]
    ensures a == b
  {
    forall i | 0 <= i < 8
      ensures a[i] == b[i]
    {
      assert forall j | 0 <= j < 8 :: a[i][j] == b[i][j];
    }
  }

  /** The board value currently held by a mutable grid. */
  function Snapshot(g: array2<Cell>): (b: Board)
    requires g.Length0 == 8 && g.Length1 == 8
    reads g
    ensures forall i, j | 0 <= i < 8 && 0 <= j < 8 :: b[i][j] == g[i, j]
  {
    seq(8, i requires 0 <= i < 8 reads g => seq(8, j requires 0 <= j < 8 reads g => g[i, j]))
  }

  /** A fresh grid holding a copy of `b` (the source's `board.map(row => [...row])`). */
  method CopyToGrid(b: Board) returns (g: array2<Cell>)
    ensures fresh(g) && g.Length0 == 8 && g.Length1 == 8
    ensures Snapshot(g) == b
  {
    g := new Cell[8, 8]((i, j) requires 0 <= i < 8 && 0 <= j < 8 => b[i][j]);
    SameBoard(Snapshot(g), b);
  }

  /** Assigns one cell of the grid in place. */
  method Write(g: array2<Cell>, r: int, c: int, x: Cell)
    requires g.Length0 == 8 && g.Length1 == 8
    requires 0 <= r < 8 && 0 <= c < 8
    modifies g
    ensures Snapshot(g) == SetCell(old(Snapshot(g)), r, c, x)
  {
    ghost var before := Snapshot(g);
    g[r, c] := x;
    SameBoard(Snapshot(g), SetCell(before, r, c, x));
  }
}
