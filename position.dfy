/**
 * Board coordinates of the chess model (Chess.Model/Game/Position.cs).
 * Row 0 is the bottom row and column 0 the leftmost column.
 */
module Positions {
  import opened Wrappers

  /** Validation.IsInRange(value, 0, 7): the index of a row or a column of the board. */
  predicate InRange(value: int) {
    0 <= value <= 7
  }

  /** A step across the board: a row delta and a column delta. */
  datatype Direction = Direction(rowDelta: int, columnDelta: int)

  /** The piece names the derivation constructor has a case for. */
  predicate KnownPieceName(pieceName: string) {
    pieceName in {"bishopOdd", "bishopEven", "queen", "knight1", "knight2", "rook1", "rook2", "king"}
  }

  /** The column of the odd-square bishop for a derivation value; 0 (the field's default) if unmatched. */
  function BishopOddColumn(derVal: int): int {
    match derVal
    case 0 => 1
    case 1 => 3
    case 2 => 5
    case 3 => 7
    case _ => 0
  }

  /** The column of the even-square bishop for a derivation value; 0 (the field's default) if unmatched. */
  function BishopEvenColumn(derVal: int): int {
    match derVal
    case 0 => 0
    case 1 => 2
    case 2 => 4
    case 3 => 6
    case _ => 0
  }

  /** The entry of the free-column list that "knight1" takes, for each of the ten knight derivation values. */
  function FirstKnightIndex(derVal: int): (i: nat)
    requires 0 <= derVal <= 9
    ensures i <= 3
  {
    match derVal
    case 0 => 0
    case 1 => 0
    case 2 => 0
    case 3 => 0
    case 4 => 1
    case 5 => 1
    case 6 => 1
    case 7 => 2
    case 8 => 2
    case 9 => 3
  }

  /** The entry of the free-column list that "knight2" takes, for each of the ten knight derivation values. */
  function SecondKnightIndex(derVal: int): (i: nat)
    requires 0 <= derVal <= 9
    ensures i <= 3
  {
    match derVal
    case 0 => 0
    case 1 => 1
    case 2 => 2
    case 3 => 3
    case 4 => 1
    case 5 => 2
    case 6 => 3
    case 7 => 2
    case 8 => 3
    case 9 => 3
  }

  /** The cases of the derivation constructor's switch on the piece name; NoCase: a name it has no case for. */
  datatype PieceCase = BishopOddCase | BishopEvenCase | QueenCase | Knight1Case | Knight2Case
                     | Rook1Case | Rook2Case | KingCase | NoCase
  {
    /**
     * The case does not throw on a list of count free columns: every list
     * index it reads is in range. The queen reads entry derVal, the knights
     * an entry of their table (only for derVal in 0..9), "rook1" and "king"
     * the first and "rook2" the last entry; the bishops and NoCase read nothing.
     */
    predicate Defined(derVal: int, count: int) {
      match this
      case QueenCase => 0 <= derVal < count
      case Knight1Case => 0 <= derVal <= 9 ==> FirstKnightIndex(derVal) < count
      case Knight2Case => 0 <= derVal <= 9 ==> SecondKnightIndex(derVal) < count
      case Rook1Case => count > 0
      case Rook2Case => count > 0
      case KingCase => count > 0
      case _ => true
    }

    /**
     * The column the case assigns; an unmatched derivation value leaves the
     * field's default 0. A bishop case or a name without a case gets its
     * fixed column whatever the list; a case that reads the list gets one of
     * the listed columns.
     */
    function Column(derVal: int, availableCols: seq<int>): (r: int)
      requires Defined(derVal, |availableCols|)
      ensures ListFree() ==> r == FixedColumn(derVal)
      ensures !ListFree() && 0 <= derVal <= 9 ==> r in availableCols
    {
      match this
      case BishopOddCase => BishopOddColumn(derVal)
      case BishopEvenCase => BishopEvenColumn(derVal)
      case QueenCase => availableCols[derVal]
      case Knight1Case => if 0 <= derVal <= 9 then availableCols[FirstKnightIndex(derVal)] else 0
      case Knight2Case => if 0 <= derVal <= 9 then availableCols[SecondKnightIndex(derVal)] else 0
      case Rook1Case => availableCols[0]
      case Rook2Case => availableCols[|availableCols| - 1]
      case KingCase => availableCols[0]
      case NoCase => 0
    }

    /** The cases whose column does not depend on the list: the bishops and NoCase. */
    predicate ListFree() {
      BishopOddCase? || BishopEvenCase? || NoCase?
    }

    /** The column a list-free case gets. */
    function FixedColumn(derVal: int): int {
      match this
      case BishopOddCase => BishopOddColumn(derVal)
      case BishopEvenCase => BishopEvenColumn(derVal)
      case _ => 0
    }
  }

  /** The switch on the piece name: which case a name selects. */
  function CaseOf(pieceName: string): (c: PieceCase)
    ensures c == NoCase <==> !KnownPieceName(pieceName)
  {
    if pieceName == "bishopOdd" then BishopOddCase
    else if pieceName == "bishopEven" then BishopEvenCase
    else if pieceName == "queen" then QueenCase
    else if pieceName == "knight1" then Knight1Case
    else if pieceName == "knight2" then Knight2Case
    else if pieceName == "rook1" then Rook1Case
    else if pieceName == "rook2" then Rook2Case
    else if pieceName == "king" then KingCase
    else NoCase
  }

  /**
   * A position on the board. The derivation constructor stores its row and
   * column unchecked, so a Position value need not lie on the board;
   * OnBoard says when it does.
   */
  datatype Position = Position(row: int, column: int) {

    predicate OnBoard() {
      InRange(row) && InRange(column)
    }

    /** The validated constructor: None stands for the exception InRange throws. */
    static function New(row: int, column: int): (r: Option<Position>)
      ensures r.Some? <==> InRange(row) && InRange(column)
      ensures r.Some? ==> r.value.row == row && r.value.column == column
    {
      if InRange(row) && InRange(column) then Some(Position(row, column)) else None
    }

    /**
     * The derivation constructor: a back-rank column chosen by piece name from
     * a derivation value and the list of free columns. The row is not checked.
     */
    static function Derive(row: int, derVal: int, pieceName: string, availableCols: seq<int>): (p: Position)
      requires CaseOf(pieceName).Defined(derVal, |availableCols|)
      ensures p.row == row
    {
      Position(row, CaseOf(pieceName).Column(derVal, availableCols))
    }

    /** Offset(rowDelta, columnDelta): the shifted position, if it is on the board. */
    function Offset(rowDelta: int, columnDelta: int): (r: Option<Position>)
      ensures r.Some? <==> InRange(row + rowDelta) && InRange(column + columnDelta)
      ensures r.Some? ==> r.value.OnBoard()
      ensures r.Some? ==> r.value.row - row == rowDelta && r.value.column - column == columnDelta
    {
      var newRow := row + rowDelta;
      var newColumn := column + columnDelta;
      if InRange(newRow) && InRange(newColumn) then New(newRow, newColumn) else None
    }

    /** Offset(Direction): the same step, with the deltas taken from a direction. */
    function OffsetBy(offset: Direction): (r: Option<Position>)
      ensures r.Some? <==> InRange(row + offset.rowDelta) && InRange(column + offset.columnDelta)
      ensures r.Some? ==> r.value == Position(row + offset.rowDelta, column + offset.columnDelta)
    {
      Offset(offset.rowDelta, offset.columnDelta)
    }

    /** Equals(Position): equal rows and equal columns. */
    function Equals(other: Position): (r: bool)
      ensures r <==> this == other
    {
      row == other.row && column == other.column
    }

    /** Equals(object): None stands for an object that is not a Position. */
    function EqualsObject(obj: Option<Position>): (r: bool)
      ensures r <==> obj == Some(this)
    {
      obj.Some? && row == obj.value.row && column == obj.value.column
    }
  }

  /** The validated constructor round-trips every on-board position, and only on-board ones. */
  lemma NewRoundTrip(p: Position)
    ensures Position.New(p.row, p.column) == (if p.OnBoard() then Some(p) else None)
  {
  }

  /** Offset(d) is Offset(d.RowDelta, d.ColumnDelta). */
  lemma OffsetByIsOffset(p: Position, d: Direction)
    ensures p.OffsetBy(d) == p.Offset(d.rowDelta, d.columnDelta)
  {
  }

  /** Offset(0, 0) gives back an equal position exactly when the position is on the board. */
  lemma OffsetZero(p: Position)
    ensures p.OnBoard() ==> p.Offset(0, 0) == Some(p) && p.Offset(0, 0).value.Equals(p)
    ensures !p.OnBoard() ==> p.Offset(0, 0) == None
  {
  }

  /** The opposite offset undoes a successful offset of an on-board position. */
  lemma OffsetUndo(p: Position, rowDelta: int, columnDelta: int)
    requires p.OnBoard() && p.Offset(rowDelta, columnDelta).Some?
    ensures p.Offset(rowDelta, columnDelta).value.Offset(-rowDelta, -columnDelta) == Some(p)
  {
  }

  /** Two successive offsets are one offset by the summed deltas, once the first has succeeded. */
  lemma OffsetCompose(p: Position, r1: int, c1: int, r2: int, c2: int)
    requires p.Offset(r1, c1).Some?
    ensures p.Offset(r1, c1).value.Offset(r2, c2) == p.Offset(r1 + r2, c1 + c2)
  {
  }

  /** Equals is an equivalence relation. */
  lemma EqualsIsEquivalence(p: Position, q: Position, s: Position)
    ensures p.Equals(p)
    ensures p.Equals(q) == q.Equals(p)
    ensures p.Equals(q) && q.Equals(s) ==> p.Equals(s)
    ensures p.Equals(q) == p.EqualsObject(Some(q))
  {
  }

  /** For derivation values 0..3 the two bishop tables give columns of opposite parity. */
  lemma BishopColumnsOppositeParity(oddVal: int, evenVal: int)
    requires 0 <= oddVal <= 3 && 0 <= evenVal <= 3
    ensures BishopOddColumn(oddVal) % 2 == 1 && BishopEvenColumn(evenVal) % 2 == 0
    ensures BishopOddColumn(oddVal) != BishopEvenColumn(evenVal)
  {
  }

  /** The bishop tables give different columns for different derivation values in 0..3. */
  lemma BishopTablesInjective(derVal: int, other: int)
    requires 0 <= derVal <= 3 && 0 <= other <= 3
    ensures BishopOddColumn(derVal) == BishopOddColumn(other) ==> derVal == other
    ensures BishopEvenColumn(derVal) == BishopEvenColumn(other) ==> derVal == other
  {
  }

  /**
   * The knight tables: "knight1" never takes a later entry than "knight2", and
   * both stay within the first four entries. Since "knight2" reads the list
   * after "knight1"'s column is removed, pairing the first index with the second
   * index plus one gives the ten ways to choose two of five free columns.
   */
  lemma KnightTables(derVal: int)
    requires 0 <= derVal <= 9
    ensures FirstKnightIndex(derVal) <= SecondKnightIndex(derVal) <= 3
  {
  }

  /** Different knight derivation values give different pairs of table entries. */
  lemma KnightPairsDistinct(derVal: int, other: int)
    requires 0 <= derVal <= 9 && 0 <= other <= 9
    requires FirstKnightIndex(derVal) == FirstKnightIndex(other)
    requires SecondKnightIndex(derVal) == SecondKnightIndex(other)
    ensures derVal == other
  {
  }

  /** The bishop names take the bishop tables: 2 * derVal + 1 and 2 * derVal for 0..3, else column 0. */
  lemma DeriveBishops(row: int, derVal: int, availableCols: seq<int>)
    ensures Position.Derive(row, derVal, "bishopOdd", availableCols).column ==
              if 0 <= derVal <= 3 then 2 * derVal + 1 else 0
    ensures Position.Derive(row, derVal, "bishopEven", availableCols).column ==
              if 0 <= derVal <= 3 then 2 * derVal else 0
  {
  }

  /** "queen" takes the free column at index derVal. */
  lemma DeriveQueen(row: int, derVal: int, availableCols: seq<int>)
    requires 0 <= derVal < |availableCols|
    ensures Position.Derive(row, derVal, "queen", availableCols).column == availableCols[derVal]
  {
  }

  /** The knight names take the free columns their tables point at, and column 0 outside 0..9. */
  lemma DeriveKnights(row: int, derVal: int, availableCols: seq<int>)
    requires |availableCols| >= 4
    ensures Position.Derive(row, derVal, "knight1", availableCols).column ==
              if 0 <= derVal <= 9 then availableCols[FirstKnightIndex(derVal)] else 0
    ensures Position.Derive(row, derVal, "knight2", availableCols).column ==
              if 0 <= derVal <= 9 then availableCols[SecondKnightIndex(derVal)] else 0
  {
  }

  /** "rook1" and "king" take the first free column and "rook2" the last. */
  lemma RookAndKingColumns(row: int, derVal: int, availableCols: seq<int>)
    requires |availableCols| > 0
    ensures Position.Derive(row, derVal, "rook1", availableCols).column == availableCols[0]
    ensures Position.Derive(row, derVal, "king", availableCols).column == availableCols[0]
    ensures Position.Derive(row, derVal, "rook2", availableCols).column == availableCols[|availableCols| - 1]
  {
  }

  /**
   * A name without a case leaves the column at its default 0, whatever the
   * list; "knight" and "rook" are such names.
   */
  lemma DeriveUnmatched(row: int, derVal: int, pieceName: string, availableCols: seq<int>)
    requires !KnownPieceName(pieceName)
    ensures CaseOf(pieceName).Defined(derVal, |availableCols|)
    ensures Position.Derive(row, derVal, pieceName, availableCols) == Position(row, 0)
    ensures CaseOf("knight") == NoCase && CaseOf("rook") == NoCase
  {
  }

  /** A longer list never makes a case throw where a shorter one did not. */
  lemma DefinedMonotone(c: PieceCase, derVal: int, count: int, larger: int)
    requires c.Defined(derVal, count) && count <= larger
    ensures c.Defined(derVal, larger)
  {
  }
}
