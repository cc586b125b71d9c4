/**
 * The Chess960 rulebook as written (Chess.Model/Rule/Chess960Rulebook.cs):
 * the derivation values drawn from an index, the back-rank construction over
 * one shared list of free columns, the pawn rows, the fold into a dictionary,
 * and the legal-update pipeline over abstract movement, execution and check
 * functions.
 */
module Chess960Rulebook {
  import opened Wrappers
  import opened Positions
  import opened ChessGames
  import opened FreeColumns
  import opened BackRanks

  // ---- GetDerivationValues ----

  /**
   * GetDerivationValues with the random index n as input: n is split into b1,
   * b2 and q with % and /, and n4 is computed as (n3 % 6) / 6.
   */
  method GetDerivationValues(n: int) returns (result: map<string, int>)
    requires 0 <= n < 959
    ensures result.Keys == {"n", "b1", "b2", "q", "n4"}
    ensures result["n"] == n
    ensures 0 <= result["b1"] <= 3 && 0 <= result["b2"] <= 3 && 0 <= result["q"] <= 5
    ensures n == result["b1"] + 4 * (result["b2"] + 4 * (n / 16))
    ensures result["q"] == (n / 16) % 6
    ensures result["n4"] == 0
  {
    result := map[];
    result := result["n" := n];
    var b1 := n % 4;
    result := result["b1" := b1];
    var n2 := (n - b1) / 4;
    var b2 := n2 % 4;
    result := result["b2" := b2];
    var n3 := (n2 - b2) / 4;
    assert n3 == n / 16;
    var q := n3 % 6;
    result := result["q" := q];
    var n4 := (n3 % 6) / 6;
    result := result["n4" := n4];
  }

  // ---- The dictionary fold of makePieces ----

  /** ImmutableSortedDictionary.Add: fails if the key is already present. */
  function Add(board: Board, position: Position, piece: Piece): Result<Board, SetupError> {
    if position in board then Failure(DuplicateKey) else Success(board[position := piece])
  }

  ghost predicate DistinctPositions(pieces: seq<PlacedPiece>) {
    forall i, j :: 0 <= i < j < |pieces| ==> pieces[i].position != pieces[j].position
  }

  function PositionsOf(pieces: seq<PlacedPiece>): set<Position> {
    set i | 0 <= i < |pieces| :: pieces[i].position
  }

  /**
   * The Aggregate of makePieces: folds the pieces into the board with Add,
   * in order. It can only throw the duplicate-key error; when it succeeds,
   * every piece added one new key, and the old keys stay.
   */
  function AddAll(board: Board, pieces: seq<PlacedPiece>): (r: Result<Board, SetupError>)
    ensures r.Failure? ==> r.error == DuplicateKey
    ensures r.Success? ==> board.Keys <= r.value.Keys && |r.value| == |board| + |pieces|
    decreases |pieces|
  {
    if pieces == [] then Success(board)
    else
      match Add(board, pieces[0].position, pieces[0].piece)
      case Failure(e) => Failure(e)
      case Success(next) => AddAll(next, pieces[1..])
  }

  /** The positions of a non-empty sequence are the first one's and the rest's. */
  lemma PositionsOfCons(pieces: seq<PlacedPiece>)
    requires pieces != []
    ensures PositionsOf(pieces) == {pieces[0].position} + PositionsOf(pieces[1..])
    ensures DistinctPositions(pieces) <==>
              DistinctPositions(pieces[1..]) && pieces[0].position !in PositionsOf(pieces[1..])
  {
    var head, tail := pieces[0], pieces[1..];
    forall p | p in PositionsOf(pieces) ensures p in {head.position} + PositionsOf(tail) {
      var i :| 0 <= i < |pieces| && pieces[i].position == p;
      if i > 0 { assert tail[i - 1] == pieces[i]; }
    }
    forall p | p in PositionsOf(tail) ensures p in PositionsOf(pieces) {
      var i :| 0 <= i < |tail| && tail[i].position == p;
      assert pieces[i + 1] == tail[i];
    }
    if DistinctPositions(tail) && head.position !in PositionsOf(tail) {
      forall i, j | 0 <= i < j < |pieces| ensures pieces[i].position != pieces[j].position {
        assert pieces[j] == tail[j - 1];
        if i > 0 { assert pieces[i] == tail[i - 1]; }
      }
    }
    if DistinctPositions(pieces) {
      forall i, j | 0 <= i < j < |tail| ensures tail[i].position != tail[j].position {
        assert tail[i] == pieces[i + 1] && tail[j] == pieces[j + 1];
      }
      forall k | 0 <= k < |tail| ensures tail[k].position != head.position {
        assert tail[k] == pieces[k + 1];
      }
    }
  }

  /**
   * The fold of makePieces succeeds exactly when no two pieces share a
   * position and none lands on a key already present; otherwise it throws the
   * duplicate-key error.
   */
  lemma {:induction false} AddAllOutcome(board: Board, pieces: seq<PlacedPiece>)
    ensures AddAll(board, pieces).Success? <==>
              DistinctPositions(pieces) && PositionsOf(pieces) !! board.Keys
    decreases |pieces|
  {
    if pieces != [] {
      PositionsOfCons(pieces);
      var head, tail := pieces[0], pieces[1..];
      if head.position !in board {
        AddAllOutcome(board[head.position := head.piece], tail);
      }
    }
  }

  /** A successful fold adds, as keys, exactly the pieces' positions. */
  lemma {:induction false} AddAllKeys(board: Board, pieces: seq<PlacedPiece>)
    requires AddAll(board, pieces).Success?
    ensures AddAll(board, pieces).value.Keys == board.Keys + PositionsOf(pieces)
    decreases |pieces|
  {
    if pieces != [] {
      PositionsOfCons(pieces);
      var head, tail := pieces[0], pieces[1..];
      var next := board[head.position := head.piece];
      AddAllKeys(next, tail);
      assert AddAll(board, pieces) == AddAll(next, tail);
    }
  }

  /**
   * A successful fold keeps the old entries and maps each piece's position to
   * the piece.
   */
  lemma {:induction false} AddAllValues(board: Board, pieces: seq<PlacedPiece>)
    requires AddAll(board, pieces).Success?
    ensures forall p :: p in board ==> p in AddAll(board, pieces).value && AddAll(board, pieces).value[p] == board[p]
    ensures forall i :: 0 <= i < |pieces| ==>
              pieces[i].position in AddAll(board, pieces).value &&
              AddAll(board, pieces).value[pieces[i].position] == pieces[i].piece
    decreases |pieces|
  {
    if pieces != [] {
      var head, tail := pieces[0], pieces[1..];
      var next := board[head.position := head.piece];
      assert AddAll(board, pieces) == AddAll(next, tail);
      AddAllValues(next, tail);
      var m := AddAll(next, tail).value;
      forall i | 0 <= i < |pieces| ensures pieces[i].position in m && m[pieces[i].position] == pieces[i].piece {
        if i > 0 { assert pieces[i] == tail[i - 1]; }
      }
    }
  }

  // ---- makePawns ----

  /** makePawns(row, color): one pawn of the colour on each column of the row. */
  function MakePawns(row: int, color: Color): (pawns: seq<PlacedPiece>)
    requires InRange(row)
    ensures |pawns| == 8 && DistinctPositions(pawns)
    ensures forall i :: 0 <= i < |pawns| ==> pawns[i] == PlacedPiece(Position(row, i), Piece(Pawn, color))
    ensures PositionsOf(pawns) == set c | 0 <= c < 8 :: Position(row, c)
  {
    var pawns := seq(8, i requires 0 <= i < 8 => PlacedPiece(Position.New(row, i).value, Piece(Pawn, color)));
    assert forall i :: 0 <= i < 8 ==> pawns[i].position == Position(row, i);
    assert PositionsOf(pawns) == set c | 0 <= c < 8 :: Position(row, c) by {
      forall p | p in set c | 0 <= c < 8 :: Position(row, c) ensures p in PositionsOf(pawns) {
        assert pawns[p.column].position == p;
      }
    }
    pawns
  }

  // ---- makeBaseLine and makePieces as written ----

  /** The derivation values makeBaseLine as written looks up. */
  predicate HasBaseLineKeys(derivationValues: map<string, int>) {
    "b1" in derivationValues && "q" in derivationValues && "n4" in derivationValues
  }

  /**
   * The eight placement lines of makeBaseLine as written, with the switch case
   * each piece name selects: both bishops read "b1", and the knights and rooks
   * are named "knight" and "rook", which select no case.
   */
  function AsWrittenLines(derivationValues: map<string, int>): seq<Instruction>
    requires HasBaseLineKeys(derivationValues)
  {
    [ Instruction(CaseOf("bishopOdd"), derivationValues["b1"]),
      Instruction(CaseOf("bishopEven"), derivationValues["b1"]),
      Instruction(CaseOf("queen"), derivationValues["q"]),
      Instruction(CaseOf("knight"), derivationValues["n4"]),
      Instruction(CaseOf("knight"), derivationValues["n4"]),
      Instruction(CaseOf("rook"), 0),
      Instruction(CaseOf("king"), 0),
      Instruction(CaseOf("rook"), 0) ]
  }

  /** The placement lines of makeBaseLine as written, run on the free columns cols. */
  function BaseLine(row: int, derivationValues: map<string, int>, cols: seq<int>): PlaceOutcome
    requires HasBaseLineKeys(derivationValues)
  {
    PlaceRange(row, AsWrittenLines(derivationValues), 0, 8, cols)
  }

  /** What makeBaseLine as written yields, or what it throws. */
  function BaseLinePieces(row: int, color: Color, derivationValues: map<string, int>, cols: seq<int>): Result<seq<PlacedPiece>, SetupError>
    requires HasBaseLineKeys(derivationValues)
  {
    match BaseLine(row, derivationValues, cols).result
    case Failure(e) => Failure(e)
    case Success(positions) =>
      PlaceRangePositions(row, AsWrittenLines(derivationValues), 0, 8, cols);
      Success(Yield(positions, color))
  }

  /**
   * makeBaseLine as written throws only IndexOutOfRange. When it does not
   * throw, all eight positions are on the row, the bishops take columns by
   * the same value b1 (for b1 in 0..3 the adjacent columns 2 * b1 and
   * 2 * b1 + 1), and the two knights and both rooks all get column 0.
   */
  lemma BaseLineAsWritten(row: int, derivationValues: map<string, int>, cols: seq<int>)
    requires HasBaseLineKeys(derivationValues)
    ensures var o := BaseLine(row, derivationValues, cols);
      o.result.Failure? ==> o.result.error == IndexOutOfRange
    ensures var o := BaseLine(row, derivationValues, cols);
      o.result.Success? ==>
        |o.result.value| == 8 &&
        (forall k :: 0 <= k < 8 ==> o.result.value[k].row == row) &&
        o.result.value[0].column == BishopOddColumn(derivationValues["b1"]) &&
        o.result.value[1].column == BishopEvenColumn(derivationValues["b1"]) &&
        (0 <= derivationValues["b1"] <= 3 ==> o.result.value[0].column == o.result.value[1].column + 1) &&
        o.result.value[3] == o.result.value[4] == o.result.value[5] == o.result.value[7] == Position(row, 0)
  {
    var lines := AsWrittenLines(derivationValues);
    PlaceRangePositions(row, lines, 0, 8, cols);
    assert CaseOf("knight") == NoCase && CaseOf("rook") == NoCase;
    assert lines[3].pieceCase == lines[5].pieceCase == NoCase;
  }

  /**
   * The even bishop ignores b2: values with b1 = 0 and b2 = 1 (those of
   * index 4) should put the even bishop on column 2, but it stands on
   * column 0, where the values of index 0 put it too.
   */
  lemma EvenBishopIgnoresB2(derivationValues: map<string, int>)
    requires HasBaseLineKeys(derivationValues) && "b2" in derivationValues
    requires derivationValues["b1"] == 0 && derivationValues["b2"] == 1 && 0 <= derivationValues["q"] <= 5
    ensures BaseLine(0, derivationValues, AllColumns).result.Success? &&
      |BaseLine(0, derivationValues, AllColumns).result.value| == 8 &&
      BaseLine(0, derivationValues, AllColumns).result.value[1].column == 0
    ensures BishopEvenColumn(derivationValues["b2"]) == 2
  {
    BaseLineSucceeds(0, derivationValues);
    BaseLineAsWritten(0, derivationValues, AllColumns);
  }

  /** From the full list of free columns and a queen value in 0..5, makeBaseLine does not throw. */
  lemma BaseLineSucceeds(row: int, derivationValues: map<string, int>)
    requires HasBaseLineKeys(derivationValues) && 0 <= derivationValues["q"] <= 5
    ensures BaseLine(row, derivationValues, AllColumns).result.Success?
  {
    var lines := AsWrittenLines(derivationValues);
    assert CaseOf("king") == KingCase && CaseOf("queen") == QueenCase;
    assert forall k :: 0 <= k < 8 ==> lines[k].pieceCase.Defined(lines[k].derVal, |AllColumns| - k);
    PlaceRangeSucceeds(row, lines, 0, 8, AllColumns);
  }

  /**
   * makePieces(pawnRow, baseRow, color) on values: the base line united with
   * the pawns, folded into an empty dictionary.
   */
  function Pieces(pawnRow: int, baseRow: int, color: Color, derivationValues: map<string, int>, cols: seq<int>): Result<Board, SetupError>
    requires HasBaseLineKeys(derivationValues) && InRange(pawnRow)
  {
    match BaseLinePieces(baseRow, color, derivationValues, cols)
    case Failure(e) => Failure(e)
    case Success(baseLine) => AddAll(map[], baseLine + MakePawns(pawnRow, color))
  }

  /**
   * makePieces as written always throws: when makeBaseLine does not throw,
   * a knight and a rook, two different pieces, stand on the same square of
   * column 0, and the fold throws DuplicateKey.
   */
  lemma PiecesAlwaysThrow(pawnRow: int, baseRow: int, color: Color, derivationValues: map<string, int>, cols: seq<int>)
    requires HasBaseLineKeys(derivationValues) && InRange(pawnRow)
    ensures Pieces(pawnRow, baseRow, color, derivationValues, cols).Failure?
    ensures BaseLine(baseRow, derivationValues, cols).result.Success? ==>
              Pieces(pawnRow, baseRow, color, derivationValues, cols) == Failure(DuplicateKey)
    ensures var ps := BaseLine(baseRow, derivationValues, cols).result;
      ps.Success? ==> ps.value[3] == ps.value[5] == Position(baseRow, 0)
  {
    BaseLineAsWritten(baseRow, derivationValues, cols);
    var o := BaseLine(baseRow, derivationValues, cols);
    if o.result.Success? {
      var pieces := Yield(o.result.value, color) + MakePawns(pawnRow, color);
      assert pieces[3].position == pieces[5].position;
      AddAllOutcome(map[], pieces);
    }
  }

  /**
   * The first three lines of makeBaseLine(row, color) as written: the two
   * bishops, which cannot throw, and the queen, which throws when its index
   * is out of range for the list left.
   */
  method PlaceBishopsAndQueen(setup: BackRankSetup, row: int) returns (r: Result<seq<Position>, SetupError>)
    requires setup.Valid() && HasBaseLineKeys(setup.derivationValues)
    modifies setup
    ensures setup.Valid()
    ensures PlaceOutcome(r, setup.availableCols) ==
            PlaceRange(row, AsWrittenLines(setup.derivationValues), 0, 3, old(setup.availableCols))
  {
    var dv := setup.derivationValues;
    ghost var c0 := setup.availableCols;
    var p1 := setup.Place(row, dv["b1"], "bishopOdd");
    ghost var c1 := setup.availableCols;
    var p2 := setup.Place(row, dv["b1"], "bishopEven");
    ghost var c2 := setup.availableCols;
    var p3 := setup.Place(row, dv["q"], "queen");
    if p3.Failure? {
      PlaceRangeThrowsAfterSteps(row, AsWrittenLines(dv), 0, 3, [c0, c1, c2], [p1.value, p2.value]);
      return Failure(p3.error);
    }
    PlaceRangeOfSteps(row, AsWrittenLines(dv), 0, 3, [c0, c1, c2, setup.availableCols], [p1.value, p2.value, p3.value]);
    r := Success([p1.value, p2.value, p3.value]);
  }

  /**
   * The last five lines of makeBaseLine(row, color) as written: the two
   * "knight" lines and the "rook" lines, which cannot throw, and the king,
   * which throws when no column is left.
   */
  method PlaceKnightsRooksAndKing(setup: BackRankSetup, row: int) returns (r: Result<seq<Position>, SetupError>)
    requires setup.Valid() && HasBaseLineKeys(setup.derivationValues)
    modifies setup
    ensures setup.Valid()
    ensures PlaceOutcome(r, setup.availableCols) ==
            PlaceRange(row, AsWrittenLines(setup.derivationValues), 3, 8, old(setup.availableCols))
  {
    var dv := setup.derivationValues;
    ghost var c0 := setup.availableCols;
    var p4 := setup.Place(row, dv["n4"], "knight");
    ghost var c1 := setup.availableCols;
    var p5 := setup.Place(row, dv["n4"], "knight");
    ghost var c2 := setup.availableCols;
    var p6 := setup.Place(row, 0, "rook");
    ghost var c3 := setup.availableCols;
    var p7 := setup.Place(row, 0, "king");
    if p7.Failure? {
      PlaceRangeThrowsAfterSteps(row, AsWrittenLines(dv), 3, 8, [c0, c1, c2, c3], [p4.value, p5.value, p6.value]);
      return Failure(p7.error);
    }
    ghost var c4 := setup.availableCols;
    var p8 := setup.Place(row, 0, "rook");
    PlaceRangeOfSteps(row, AsWrittenLines(dv), 3, 8, [c0, c1, c2, c3, c4, setup.availableCols],
                      [p4.value, p5.value, p6.value, p7.value, p8.value]);
    r := Success([p4.value, p5.value, p6.value, p7.value, p8.value]);
  }

  /**
   * makeBaseLine(row, color) as written, on the shared list of free columns:
   * the eight placement lines, then the yield statements.
   */
  method MakeBaseLine(setup: BackRankSetup, row: int, color: Color) returns (r: Result<seq<PlacedPiece>, SetupError>)
    requires setup.Valid() && HasBaseLineKeys(setup.derivationValues)
    modifies setup
    ensures setup.Valid()
    ensures r == BaseLinePieces(row, color, setup.derivationValues, old(setup.availableCols))
    ensures setup.availableCols == BaseLine(row, setup.derivationValues, old(setup.availableCols)).rest
  {
    ghost var c0 := setup.availableCols;
    PlaceRangeSplit(row, AsWrittenLines(setup.derivationValues), 0, 3, 8, c0);
    var first :- PlaceBishopsAndQueen(setup, row);
    var rest :- PlaceKnightsRooksAndKing(setup, row);
    PlaceRangePositions(row, AsWrittenLines(setup.derivationValues), 0, 8, c0);
    r := Success(Yield(first + rest, color));
  }

  /** makePieces(pawnRow, baseRow, color) as written: it always throws (PiecesAlwaysThrow). */
  method MakePieces(setup: BackRankSetup, pawnRow: int, baseRow: int, color: Color) returns (r: Result<Board, SetupError>)
    requires setup.Valid() && HasBaseLineKeys(setup.derivationValues) && InRange(pawnRow)
    modifies setup
    ensures setup.Valid()
    ensures r == Pieces(pawnRow, baseRow, color, setup.derivationValues, old(setup.availableCols))
    ensures setup.availableCols == BaseLine(baseRow, setup.derivationValues, old(setup.availableCols)).rest
  {
    var pawns := MakePawns(pawnRow, color);
    var baseLine := MakeBaseLine(setup, baseRow, color);
    match baseLine
    case Failure(e) => r := Failure(e);
    case Success(b) => r := AddAll(map[], b + pawns);
  }

  /**
   * CreateGame as written, for the random index n. White's pieces are folded
   * first, and that fold always throws, so the construction of Black's pieces,
   * the board and the game is never reached.
   */
  method CreateGame(n: int) returns (r: Result<ChessGame, SetupError>)
    requires 0 <= n < 959
    ensures r == Failure(DuplicateKey)
  {
    var derivationValues := GetDerivationValues(n);
    var setup := new BackRankSetup(derivationValues);
    BaseLineSucceeds(0, derivationValues);
    PiecesAlwaysThrow(1, 0, White, derivationValues, AllColumns);
    var whitePieces := MakePieces(setup, 1, 0, White);
    r := Failure(whitePieces.error);
  }

  // ---- GetUpdates ----

  /**
   * A candidate command wrapped with the end of the turn and the record of
   * the update: the command runs first, the turn ends, and the update stored
   * as the last one holds the game before the move and the command with its
   * turn end. The candidate can be read back from the record.
   */
  function Recorded(game: ChessGame, command: Command): (r: Command)
    ensures r.Sequence? && r.first == Sequence(command, EndTurn)
    ensures r.second.SetLastUpdate? && r.second.update.game == game && r.second.update.command == r.first
  {
    var turnEnd := Sequence(command, EndTurn);
    Sequence(turnEnd, SetLastUpdate(Update(game, turnEnd)))
  }

  /** FilterMaybes: the present values, in order. */
  function FilterMaybes<T(!new)>(xs: seq<Option<T>>): (r: seq<T>)
    ensures |r| <= |xs|
    ensures forall y :: y in r <==> Some(y) in xs
  {
    if xs == [] then []
    else
      assert xs == [xs[0]] + xs[1..];
      match xs[0]
      case None => FilterMaybes(xs[1..])
      case Some(y) => [y] + FilterMaybes(xs[1..])
  }

  /** Where: the elements that satisfy keep, in order. */
  function Where<T(!new)>(xs: seq<T>, keep: T -> bool): (r: seq<T>)
    ensures |r| <= |xs|
    ensures forall y :: y in r <==> y in xs && keep(y)
  {
    if xs == [] then []
    else
      assert xs == [xs[0]] + xs[1..];
      if keep(xs[0]) then [xs[0]] + Where(xs[1..], keep) else Where(xs[1..], keep)
  }

  /**
   * An update GetUpdates may return for piece: it comes from one of the
   * piece's candidate commands, its game is what executing its command on
   * game gives, and that game does not leave the mover (now passive) in check.
   */
  ghost predicate LegalUpdate(game: ChessGame, piece: PlacedPiece, u: Update,
                              getCommands: (ChessGame, PlacedPiece) -> seq<Command>,
                              execute: (Command, ChessGame) -> Option<ChessGame>,
                              isInCheck: (ChessGame, Player) -> bool)
  {
    && (exists c :: c in getCommands(game, piece) && u.command == Recorded(game, c))
    && execute(u.command, game) == Some(u.game)
    && !isInCheck(u.game, u.game.passivePlayer)
  }

  /**
   * The lambda of GetUpdates for the piece found: its commands, recorded,
   * executed, and filtered by the check rule. There is at most one update per
   * candidate command, and each is what executing its command gives and
   * leaves the mover out of check.
   */
  function PieceUpdates(game: ChessGame, piece: PlacedPiece,
                        getCommands: (ChessGame, PlacedPiece) -> seq<Command>,
                        execute: (Command, ChessGame) -> Option<ChessGame>,
                        isInCheck: (ChessGame, Player) -> bool): (updates: seq<Update>)
    ensures |updates| <= |getCommands(game, piece)|
    ensures forall u :: u in updates ==>
              execute(u.command, game) == Some(u.game) && !isInCheck(u.game, u.game.passivePlayer)
  {
    var moves := getCommands(game, piece);
    var records := seq(|moves|, i requires 0 <= i < |moves| => Recorded(game, moves[i]));
    var futures := seq(|records|, i requires 0 <= i < |records| =>
                     match execute(records[i], game)
                     case Some(g) => Some(Update(g, records[i]))
                     case None => None);
    Where(FilterMaybes(futures), (e: Update) => !isInCheck(e.game, e.game.passivePlayer))
  }

  /**
   * The updates of a piece are at most one per candidate command, and are
   * exactly its legal updates.
   */
  lemma PieceUpdatesLegal(game: ChessGame, piece: PlacedPiece,
                          getCommands: (ChessGame, PlacedPiece) -> seq<Command>,
                          execute: (Command, ChessGame) -> Option<ChessGame>,
                          isInCheck: (ChessGame, Player) -> bool)
    ensures var updates := PieceUpdates(game, piece, getCommands, execute, isInCheck);
      |updates| <= |getCommands(game, piece)| &&
      forall u :: u in updates <==> LegalUpdate(game, piece, u, getCommands, execute, isInCheck)
  {
    var moves := getCommands(game, piece);
    var records := seq(|moves|, i requires 0 <= i < |moves| => Recorded(game, moves[i]));
    var futures := seq(|records|, i requires 0 <= i < |records| =>
                     match execute(records[i], game)
                     case Some(g) => Some(Update(g, records[i]))
                     case None => None);
    var updates := Where(FilterMaybes(futures), (e: Update) => !isInCheck(e.game, e.game.passivePlayer));
    assert updates == PieceUpdates(game, piece, getCommands, execute, isInCheck);
    forall u
      ensures u in updates <==> LegalUpdate(game, piece, u, getCommands, execute, isInCheck)
    {
      if u in updates {
        assert Some(u) in futures;
        var i :| 0 <= i < |futures| && futures[i] == Some(u);
        assert moves[i] in moves && u.command == Recorded(game, moves[i]);
      }
      if LegalUpdate(game, piece, u, getCommands, execute, isInCheck) {
        var c :| c in moves && u.command == Recorded(game, c);
        var i :| 0 <= i < |moves| && moves[i] == c;
        assert futures[i] == Some(u);
      }
    }
  }

  /**
   * GetUpdates(game, position) over the movement rule's GetCommands, command
   * execution and the check rule, given as functions: no updates when the
   * active player has no piece on position, and otherwise exactly the legal
   * updates of that piece.
   */
  function GetUpdates(game: ChessGame, position: Position,
                      getCommands: (ChessGame, PlacedPiece) -> seq<Command>,
                      execute: (Command, ChessGame) -> Option<ChessGame>,
                      isInCheck: (ChessGame, Player) -> bool): (updates: seq<Update>)
    ensures GetPiece(game.board, position, game.activePlayer.color).None? ==> updates == []
    ensures GetPiece(game.board, position, game.activePlayer.color).Some? ==>
              var piece := GetPiece(game.board, position, game.activePlayer.color).value;
              |updates| <= |getCommands(game, piece)| &&
              forall u :: u in updates <==> LegalUpdate(game, piece, u, getCommands, execute, isInCheck)
    ensures forall u :: u in updates ==> !isInCheck(u.game, u.game.passivePlayer)
  {
    match GetPiece(game.board, position, game.activePlayer.color)
    case None => []
    case Some(piece) =>
      PieceUpdatesLegal(game, piece, getCommands, execute, isInCheck);
      PieceUpdates(game, piece, getCommands, execute, isInCheck)
  }
}
