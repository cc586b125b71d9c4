/**
 * The Chess960 set-up of Chess.Model/Rule/Chess960Rulebook.cs as its code
 * evidently intends it: the index is drawn from all 960 values, the knight
 * value is the quotient n3 / 6, the even bishop reads "b2", the knights and
 * rooks use the names the derivation constructor has cases for, and each
 * colour's back rank takes its columns from a list of its own. On this set-up
 * every index gives a legal Chess960 starting position.
 */
module Chess960Corrected {
  import opened Wrappers
  import opened Positions
  import opened ChessGames
  import opened FreeColumns
  import opened BackRanks
  import Chess960Rulebook

  // ---- GetDerivationValues ----

  /** Derivation values a back rank can be built from: b1 and b2 in 0..3, q in 0..5, n4 in 0..9. */
  predicate ValidDerivation(derivationValues: map<string, int>) {
    && "b1" in derivationValues && "b2" in derivationValues
    && "q" in derivationValues && "n4" in derivationValues
    && 0 <= derivationValues["b1"] <= 3 && 0 <= derivationValues["b2"] <= 3
    && 0 <= derivationValues["q"] <= 5 && 0 <= derivationValues["n4"] <= 9
  }

  /**
   * The derivation values of index n: n read as a number with digits of
   * bases 4, 4, 6 and 10, least significant first.
   */
  function DerivationValues(n: int): (dv: map<string, int>)
    requires 0 <= n < 960
    ensures dv.Keys == {"n", "b1", "b2", "q", "n4"} && dv["n"] == n
    ensures ValidDerivation(dv)
    ensures n == dv["b1"] + 4 * dv["b2"] + 16 * dv["q"] + 96 * dv["n4"]
  {
    var b1, n2 := n % 4, n / 4;
    var b2, n3 := n2 % 4, n2 / 4;
    var q, n4 := n3 % 6, n3 / 6;
    assert n == b1 + 4 * n2 && n2 == b2 + 4 * n3 && n3 == q + 6 * n4;
    assert 0 <= n4 <= 9;
    map["n" := n, "b1" := b1, "b2" := b2, "q" := q, "n4" := n4]
  }

  /**
   * Every choice of the four values comes from exactly one index: the index
   * they spell is in 0..959 and gives them back.
   */
  lemma DerivationValuesInverse(b1: int, b2: int, q: int, n4: int)
    requires 0 <= b1 <= 3 && 0 <= b2 <= 3 && 0 <= q <= 5 && 0 <= n4 <= 9
    ensures var n := b1 + 4 * b2 + 16 * q + 96 * n4;
      0 <= n < 960 &&
      DerivationValues(n)["b1"] == b1 && DerivationValues(n)["b2"] == b2 &&
      DerivationValues(n)["q"] == q && DerivationValues(n)["n4"] == n4
  {
    var n := b1 + 4 * b2 + 16 * q + 96 * n4;
    assert n == b1 + 4 * (b2 + 4 * q + 24 * n4);
    assert n / 4 == b2 + 4 * q + 24 * n4;
    assert n / 4 % 4 == b2 by {
      assert n / 4 == b2 + 4 * (q + 6 * n4);
    }
    assert n / 16 == q + 6 * n4;
    assert n / 96 == n4;
  }

  /** Different indices give different derivation values. */
  lemma DerivationValuesInjective(n: int, m: int)
    requires 0 <= n < 960 && 0 <= m < 960
    requires DerivationValues(n)["b1"] == DerivationValues(m)["b1"]
    requires DerivationValues(n)["b2"] == DerivationValues(m)["b2"]
    requires DerivationValues(n)["q"] == DerivationValues(m)["q"]
    requires DerivationValues(n)["n4"] == DerivationValues(m)["n4"]
    ensures n == m
  {
  }

  /**
   * GetDerivationValues with the random index n as input, drawn from 0..959,
   * and with the last value taken as the quotient (n3 - q) / 6.
   */
  method GetDerivationValues(n: int) returns (result: map<string, int>)
    requires 0 <= n < 960
    ensures result == DerivationValues(n)
  {
    result := map[];
    result := result["n" := n];
    var b1 := n % 4;
    result := result["b1" := b1];
    var n2 := (n - b1) / 4;
    var b2 := n2 % 4;
    result := result["b2" := b2];
    var n3 := (n2 - b2) / 4;
    var q := n3 % 6;
    result := result["q" := q];
    var n4 := (n3 - q) / 6;
    result := result["n4" := n4];
  }

  // ---- makeBaseLine ----

  /**
   * The eight placement lines of makeBaseLine as evidently intended: each
   * piece's own case, the even bishop reading b2 and the knights n4.
   */
  function Lines(derivationValues: map<string, int>): seq<Instruction>
    requires ValidDerivation(derivationValues)
  {
    [ Instruction(BishopOddCase, derivationValues["b1"]),
      Instruction(BishopEvenCase, derivationValues["b2"]),
      Instruction(QueenCase, derivationValues["q"]),
      Instruction(Knight1Case, derivationValues["n4"]),
      Instruction(Knight2Case, derivationValues["n4"]),
      Instruction(Rook1Case, 0),
      Instruction(KingCase, 0),
      Instruction(Rook2Case, 0) ]
  }

  /** The names the corrected placement lines pass select those cases. */
  lemma NamesSelectCases()
    ensures CaseOf("bishopOdd") == BishopOddCase && CaseOf("bishopEven") == BishopEvenCase
    ensures CaseOf("queen") == QueenCase && CaseOf("king") == KingCase
    ensures CaseOf("knight1") == Knight1Case && CaseOf("knight2") == Knight2Case
    ensures CaseOf("rook1") == Rook1Case && CaseOf("rook2") == Rook2Case
  {
  }


  /** On a list with nothing taken no line's index is out of range. */
  lemma LinesSucceed(row: int, derivationValues: map<string, int>, cols: seq<int>)
    requires ValidDerivation(derivationValues) && |cols| == 8
    ensures PlaceRange(row, Lines(derivationValues), 0, 8, cols).result.Success?
  {
    var lines := Lines(derivationValues);
    KnightTables(derivationValues["n4"]);
    assert forall k :: 0 <= k < 8 ==> lines[k].pieceCase.Defined(lines[k].derVal, |cols| - k);
    PlaceRangeSucceeds(row, lines, 0, 8, cols);
  }

  /** A value at two indices of a list occurs in it at least twice. */
  lemma TwoCopies(cs: seq<int>, i: int, j: int)
    requires 0 <= i < j < |cs|
    ensures cs[i] == cs[j] ==> multiset(cs)[cs[i]] >= 2
  {
    assert cs == cs[..j] + cs[j..];
    assert cs[i] in cs[..j] && cs[j] in cs[j..];
    assert multiset(cs)[cs[i]] == multiset(cs[..j])[cs[i]] + multiset(cs[j..])[cs[i]];
  }

  /** A permutation of a list with nothing taken holds each board column exactly once. */
  lemma PermutationOfFull(cs: seq<int>, cols: seq<int>)
    requires FullColumns(cols) && multiset(cs) == multiset(cols)
    ensures |cs| == 8
    ensures forall c :: c in cs <==> InRange(c)
    ensures forall i, j :: 0 <= i < j < |cs| ==> cs[i] != cs[j]
  {
    assert |cs| == |multiset(cs)|;
    forall c ensures c in cs <==> InRange(c) {
      assert c in cs <==> c in multiset(cs);
      assert c in cols <==> c in multiset(cols);
    }
    forall i, j | 0 <= i < j < |cs| ensures cs[i] != cs[j] {
      IncreasingMultiplicity(cols, cs[i]);
      TwoCopies(cs, i, j);
    }
  }

  /**
   * The two bishops come first and take their columns off a list with
   * nothing taken: two different columns, so six are left.
   */
  lemma BishopsFirst(row: int, derivationValues: map<string, int>, cols: seq<int>)
    requires ValidDerivation(derivationValues) && FullColumns(cols)
    ensures var o := PlaceRange(row, Lines(derivationValues), 0, 2, cols);
      o.result == Success([Position(row, BishopOddColumn(derivationValues["b1"])),
                           Position(row, BishopEvenColumn(derivationValues["b2"]))]) &&
      |o.rest| == 6
  {
    var odd, even := BishopOddColumn(derivationValues["b1"]), BishopEvenColumn(derivationValues["b2"]);
    BishopColumnsOppositeParity(derivationValues["b1"], derivationValues["b2"]);
    assert InRange(odd) && InRange(even);
    RemoveTwoLength(cols, odd, even);
    TwoListFreeSteps(row, Lines(derivationValues), 0, cols);
  }

  /** After the two bishop steps on a list with nothing taken, six columns are left. */
  lemma BishopStepsLeaveSix(row: int, derivationValues: map<string, int>,
      c0: seq<int>, c1: seq<int>, c2: seq<int>, p1: Position, p2: Position)
    requires ValidDerivation(derivationValues) && FullColumns(c0)
    requires StepMatches(row, Instruction(BishopOddCase, derivationValues["b1"]), c0, p1, c1)
    requires StepMatches(row, Instruction(BishopEvenCase, derivationValues["b2"]), c1, p2, c2)
    ensures |c2| == 6
  {
    var odd, even := BishopOddColumn(derivationValues["b1"]), BishopEvenColumn(derivationValues["b2"]);
    BishopColumnsOppositeParity(derivationValues["b1"], derivationValues["b2"]);
    ListFreeStep(row, Instruction(BishopOddCase, derivationValues["b1"]), c0);
    ListFreeStep(row, Instruction(BishopEvenCase, derivationValues["b2"]), c1);
    assert InRange(odd) && InRange(even);
    RemoveTwoLength(c0, odd, even);
  }

  /** The two bishop lines place the bishops and take their two columns off the list. */
  lemma BishopsTaken(row: int, derivationValues: map<string, int>, cols: seq<int>)
    requires ValidDerivation(derivationValues)
    ensures PlaceRange(row, Lines(derivationValues), 0, 2, cols) ==
      PlaceOutcome(Success([Position(row, BishopOddColumn(derivationValues["b1"])),
                            Position(row, BishopEvenColumn(derivationValues["b2"]))]),
                   RemoveFirst(RemoveFirst(cols, BishopOddColumn(derivationValues["b1"])),
                               BishopEvenColumn(derivationValues["b2"])))
  {
    TwoListFreeSteps(row, Lines(derivationValues), 0, cols);
  }

  /**
   * The corrected placement lines on a list with nothing taken: eight
   * positions on the row, the bishops on the columns of b1 and b2, every
   * column of the list taken exactly once, and no column left over.
   */
  lemma LinesLayout(row: int, derivationValues: map<string, int>, cols: seq<int>)
    requires ValidDerivation(derivationValues) && FullColumns(cols)
    ensures var o := PlaceRange(row, Lines(derivationValues), 0, 8, cols);
      o.result.Success? && o.rest == [] && |o.result.value| == 8 &&
      (forall k :: 0 <= k < 8 ==> o.result.value[k].row == row) &&
      o.result.value[0].column == BishopOddColumn(derivationValues["b1"]) &&
      o.result.value[1].column == BishopEvenColumn(derivationValues["b2"]) &&
      multiset(Columns(o.result.value)) == multiset(cols)
  {
    var lines := Lines(derivationValues);
    LinesSucceed(row, derivationValues, cols);
    PlaceRangePositions(row, lines, 0, 8, cols);
    BishopsFirst(row, derivationValues, cols);
    var c2 := PlaceRange(row, lines, 0, 2, cols).rest;
    PlaceRangeSplit(row, lines, 0, 2, 8, cols);
    assert forall k :: 2 <= k < 8 ==> !lines[k].pieceCase.ListFree() && 0 <= lines[k].derVal <= 9;
    PlaceRangeTakesEntries(row, lines, 2, 8, c2);
    PlaceRangeMultiset(row, lines, 0, 8, cols);
  }

  /**
   * Lines 5..8 that are "rook1", "king" and "rook2", run on a sorted list of
   * three: they take its first, middle and last column, in that order.
   */
  lemma RookKingRookSteps(row: int, ins: seq<Instruction>, left: seq<int>)
    requires |ins| == 8 && |left| == 3 && Increasing(left)
    requires ins[5] == Instruction(Rook1Case, 0) && ins[6] == Instruction(KingCase, 0) &&
             ins[7] == Instruction(Rook2Case, 0)
    requires PlaceRange(row, ins, 5, 8, left).result.Success?
    ensures var ps := PlaceRange(row, ins, 5, 8, left).result.value;
      |ps| == 3 && ps[0].column < ps[1].column < ps[2].column
  {
    IncreasingIndices(left);
    assert RemoveFirst(left, left[0]) == left[1..];
    assert RemoveFirst(left[1..], left[1]) == left[2..];
    PlaceRangeHead(row, ins, 5, 8, left);
    PlaceRangeHead(row, ins, 6, 8, left[1..]);
    PlaceRangeHead(row, ins, 7, 8, left[2..]);
  }

  /**
   * The last three lines take the three columns the knights left, in order:
   * "rook1" the first, "king" the next and "rook2" the last, so the king
   * stands between the rooks.
   */
  lemma RooksAroundKing(row: int, derivationValues: map<string, int>, cols: seq<int>)
    requires ValidDerivation(derivationValues) && FullColumns(cols)
    ensures var o := PlaceRange(row, Lines(derivationValues), 0, 8, cols);
      o.result.Success? && |o.result.value| == 8 &&
      o.result.value[5].column < o.result.value[6].column < o.result.value[7].column
  {
    var lines := Lines(derivationValues);
    LinesLayout(row, derivationValues, cols);
    PlaceRangeSplit(row, lines, 0, 5, 8, cols);
    var first := PlaceRange(row, lines, 0, 5, cols);
    assert first.result.Success?;
    var left := first.rest;
    PlaceRangeAfterPrefix(row, lines, 0, 5, 8, cols, first.result.value, left);
    PlaceRangeRest(row, lines, 0, 5, cols);
    PlaceRangePositions(row, lines, 0, 5, cols);
    assert lines[5] == Instruction(Rook1Case, 0) && lines[6] == Instruction(KingCase, 0) &&
           lines[7] == Instruction(Rook2Case, 0);
    PlaceRangeTakesEntries(row, lines, 5, 8, left);
    RookKingRookSteps(row, lines, left);
  }

  /** A run of the corrected lines places the same columns on every row. */
  lemma LinesRowFree(row: int, other: int, derivationValues: map<string, int>, cols: seq<int>)
    requires ValidDerivation(derivationValues) && FullColumns(cols)
    ensures var o, o' := PlaceRange(row, Lines(derivationValues), 0, 8, cols),
                        PlaceRange(other, Lines(derivationValues), 0, 8, cols);
      o.result.Success? && o'.result.Success? &&
      Columns(o.result.value) == Columns(o'.result.value)
  {
    LinesLayout(row, derivationValues, cols);
    PlaceRangeRowFree(row, other, Lines(derivationValues), 0, 8, cols);
  }

  /**
   * On a list with nothing taken the corrected lines give a Chess960
   * arrangement: every column once, the bishops on columns of opposite parity
   * (squares of opposite colours), and the king between the two rooks.
   */
  lemma LinesArrangement(row: int, derivationValues: map<string, int>, cols: seq<int>)
    requires ValidDerivation(derivationValues) && FullColumns(cols)
    ensures var o := PlaceRange(row, Lines(derivationValues), 0, 8, cols);
      o.result.Success? &&
      var cs := Columns(o.result.value);
      |cs| == 8 &&
      multiset(cs) == multiset(cols) &&
      (forall c :: c in cs <==> InRange(c)) &&
      (forall i, j :: 0 <= i < j < 8 ==> cs[i] != cs[j]) &&
      cs[0] == BishopOddColumn(derivationValues["b1"]) && cs[0] % 2 == 1 &&
      cs[1] == BishopEvenColumn(derivationValues["b2"]) && cs[1] % 2 == 0 &&
      cs[5] < cs[6] < cs[7]
  {
    LinesLayout(row, derivationValues, cols);
    RooksAroundKing(row, derivationValues, cols);
    var cs := Columns(PlaceRange(row, Lines(derivationValues), 0, 8, cols).result.value);
    PermutationOfFull(cs, cols);
    BishopColumnsOppositeParity(derivationValues["b1"], derivationValues["b2"]);
  }

  /** The free columns left after the two bishops take theirs. */
  function FreeAfterBishops(b1: int, b2: int, cols: seq<int>): seq<int> {
    RemoveFirst(RemoveFirst(cols, BishopOddColumn(b1)), BishopEvenColumn(b2))
  }

  /** On a list with nothing taken the bishops leave six columns, sorted. */
  lemma FreeAfterBishopsSorted(b1: int, b2: int, cols: seq<int>)
    requires 0 <= b1 <= 3 && 0 <= b2 <= 3 && FullColumns(cols)
    ensures |FreeAfterBishops(b1, b2, cols)| == 6 && Increasing(FreeAfterBishops(b1, b2, cols))
  {
    var odd, even := BishopOddColumn(b1), BishopEvenColumn(b2);
    BishopColumnsOppositeParity(b1, b2);
    assert InRange(odd) && InRange(even);
    RemoveTwoLength(cols, odd, even);
    RemoveFirstKeepsOrder(cols, odd);
    RemoveFirstKeepsOrder(RemoveFirst(cols, odd), even);
  }

  /**
   * Lines 2..8 that start with the queen and the two knights, run on c2: the
   * queen takes entry q, the first knight its entry of what the queen left,
   * and the second knight its entry of what the first left.
   */
  lemma QueenAndKnightSteps(row: int, ins: seq<Instruction>, q: int, n4: int, c2: seq<int>)
    requires |ins| == 8 && 0 <= n4 <= 9
    requires ins[2] == Instruction(QueenCase, q) && ins[3] == Instruction(Knight1Case, n4) &&
             ins[4] == Instruction(Knight2Case, n4)
    requires 0 <= q < |c2| && FirstKnightIndex(n4) < |TakeEntry(c2, q)|
    requires SecondKnightIndex(n4) < |TakeEntry(TakeEntry(c2, q), FirstKnightIndex(n4))|
    requires PlaceRange(row, ins, 2, 8, c2).result.Success?
    ensures var ps := PlaceRange(row, ins, 2, 8, c2).result.value;
      var c3 := TakeEntry(c2, q);
      |ps| >= 3 && ps[0].column == c2[q] && ps[1].column == c3[FirstKnightIndex(n4)] &&
      ps[2].column == TakeEntry(c3, FirstKnightIndex(n4))[SecondKnightIndex(n4)]
  {
    var c3 := TakeEntry(c2, q);
    PlaceRangeHead(row, ins, 2, 8, c2);
    PlaceRangeHead(row, ins, 3, 8, c3);
    PlaceRangeHead(row, ins, 4, 8, TakeEntry(c3, FirstKnightIndex(n4)));
  }

  /**
   * On a list with nothing taken the queen takes entry q of the six columns
   * the bishops left, the first knight entry FirstKnightIndex(n4) of the five
   * the queen left, and the second knight entry SecondKnightIndex(n4) of the
   * four left after that.
   */
  lemma LinesQueenAndKnights(row: int, derivationValues: map<string, int>, cols: seq<int>)
    requires ValidDerivation(derivationValues) && FullColumns(cols)
    ensures var b1, b2, q, n4 := derivationValues["b1"], derivationValues["b2"], derivationValues["q"], derivationValues["n4"];
      var c2 := FreeAfterBishops(b1, b2, cols);
      |c2| == 6 && Increasing(c2) &&
      var c3 := TakeEntry(c2, q);
      |c3| == 5 && Increasing(c3) &&
      var c4 := TakeEntry(c3, FirstKnightIndex(n4));
      |c4| == 4 && Increasing(c4) &&
      var o := PlaceRange(row, Lines(derivationValues), 0, 8, cols);
      o.result.Success? && |o.result.value| == 8 &&
      o.result.value[0].column == BishopOddColumn(b1) && o.result.value[1].column == BishopEvenColumn(b2) &&
      o.result.value[2].column == c2[q] && o.result.value[3].column == c3[FirstKnightIndex(n4)] &&
      o.result.value[4].column == c4[SecondKnightIndex(n4)]
  {
    var lines := Lines(derivationValues);
    var b1, b2, q, n4 := derivationValues["b1"], derivationValues["b2"], derivationValues["q"], derivationValues["n4"];
    KnightTables(n4);
    FreeAfterBishopsSorted(b1, b2, cols);
    var c2 := FreeAfterBishops(b1, b2, cols);
    TakeEntrySorted(c2, q);
    TakeEntrySorted(TakeEntry(c2, q), FirstKnightIndex(n4));
    LinesSucceed(row, derivationValues, cols);
    PlaceRangePositions(row, lines, 0, 8, cols);
    BishopsTaken(row, derivationValues, cols);
    PlaceRangeAfterPrefix(row, lines, 0, 2, 8, cols, [Position(row, BishopOddColumn(b1)), Position(row, BishopEvenColumn(b2))], c2);
    QueenAndKnightSteps(row, lines, q, n4, c2);
  }

  /**
   * The queen and the knights take different columns off the same sorted
   * list of six for different values of q and n4.
   */
  lemma QueenAndKnightsInjective(c2: seq<int>, q: int, n4: int, q': int, n4': int)
    requires |c2| == 6 && Increasing(c2) && 0 <= q <= 5 && 0 <= q' <= 5 && 0 <= n4 <= 9 && 0 <= n4' <= 9
    requires c2[q] == c2[q']
    requires TakeEntry(c2, q)[FirstKnightIndex(n4)] == TakeEntry(c2, q')[FirstKnightIndex(n4')]
    requires TakeEntry(TakeEntry(c2, q), FirstKnightIndex(n4))[SecondKnightIndex(n4)] ==
             TakeEntry(TakeEntry(c2, q'), FirstKnightIndex(n4'))[SecondKnightIndex(n4')]
    ensures q == q' && n4 == n4'
  {
    KnightTables(n4);
    KnightTables(n4');
    IncreasingEntry(c2, q, q');
    var c3 := TakeEntry(c2, q);
    TakeEntrySorted(c2, q);
    IncreasingEntry(c3, FirstKnightIndex(n4), FirstKnightIndex(n4'));
    TakeEntrySorted(c3, FirstKnightIndex(n4));
    IncreasingEntry(TakeEntry(c3, FirstKnightIndex(n4)), SecondKnightIndex(n4), SecondKnightIndex(n4'));
    KnightPairsDistinct(n4, n4');
  }

  /**
   * The corrected lines on a list with nothing taken place the bishops,
   * the queen and the knights differently for different derivation values.
   */
  lemma LinesInjective(row: int, derivationValues: map<string, int>, other: map<string, int>, cols: seq<int>)
    requires ValidDerivation(derivationValues) && ValidDerivation(other) && FullColumns(cols)
    requires PlaceRange(row, Lines(derivationValues), 0, 8, cols).result.Success?
    requires PlaceRange(row, Lines(other), 0, 8, cols).result.Success?
    requires Columns(PlaceRange(row, Lines(derivationValues), 0, 8, cols).result.value) ==
             Columns(PlaceRange(row, Lines(other), 0, 8, cols).result.value)
    ensures derivationValues["b1"] == other["b1"] && derivationValues["b2"] == other["b2"]
    ensures derivationValues["q"] == other["q"] && derivationValues["n4"] == other["n4"]
  {
    LinesQueenAndKnights(row, derivationValues, cols);
    LinesQueenAndKnights(row, other, cols);
    var cs := Columns(PlaceRange(row, Lines(derivationValues), 0, 8, cols).result.value);
    var b1, b2 := derivationValues["b1"], derivationValues["b2"];
    BishopTablesInjective(b1, other["b1"]);
    BishopTablesInjective(b2, other["b2"]);
    assert cs[0] == BishopOddColumn(b1) == BishopOddColumn(other["b1"]);
    assert cs[1] == BishopEvenColumn(b2) == BishopEvenColumn(other["b2"]);
    QueenAndKnightsInjective(FreeAfterBishops(b1, b2, cols), derivationValues["q"], derivationValues["n4"],
                             other["q"], other["n4"]);
  }

  // ---- The corrected back rank on a fresh list ----

  /** The placement lines run on a fresh list of all eight columns. */
  function BaseLine(row: int, derivationValues: map<string, int>): PlaceOutcome
    requires ValidDerivation(derivationValues)
  {
    PlaceRange(row, Lines(derivationValues), 0, 8, AllColumns)
  }

  /** The columns of the back rank, in the order of the placement lines; the same on every row. */
  function BaseColumns(derivationValues: map<string, int>): (cs: seq<int>)
    requires ValidDerivation(derivationValues)
    ensures |cs| == 8
  {
    AllColumnsFull();
    LinesLayout(0, derivationValues, AllColumns);
    Columns(BaseLine(0, derivationValues).result.value)
  }

  /** On every row the back rank is placed on the columns BaseColumns lists, and uses up the list. */
  lemma BaseLineOnRow(row: int, derivationValues: map<string, int>)
    requires ValidDerivation(derivationValues)
    ensures var o := BaseLine(row, derivationValues);
      o.result.Success? && o.rest == [] && |o.result.value| == 8 &&
      forall k :: 0 <= k < 8 ==> o.result.value[k] == Position(row, BaseColumns(derivationValues)[k])
  {
    AllColumnsFull();
    LinesLayout(row, derivationValues, AllColumns);
    LinesRowFree(row, 0, derivationValues, AllColumns);
    var ps := BaseLine(row, derivationValues).result.value;
    forall k | 0 <= k < 8 ensures ps[k] == Position(row, BaseColumns(derivationValues)[k]) {
      assert Columns(ps)[k] == BaseColumns(derivationValues)[k];
    }
  }

  /**
   * The back rank is a Chess960 arrangement: every column once, the bishops
   * on columns of opposite parity (squares of opposite colours), and the
   * king between the two rooks.
   */
  lemma BaseColumnsArrangement(derivationValues: map<string, int>)
    requires ValidDerivation(derivationValues)
    ensures var cs := BaseColumns(derivationValues);
      multiset(cs) == multiset(AllColumns) &&
      (forall c :: c in cs <==> InRange(c)) &&
      (forall i, j :: 0 <= i < j < 8 ==> cs[i] != cs[j]) &&
      cs[0] == BishopOddColumn(derivationValues["b1"]) && cs[0] % 2 == 1 &&
      cs[1] == BishopEvenColumn(derivationValues["b2"]) && cs[1] % 2 == 0 &&
      cs[5] < cs[6] < cs[7]
  {
    AllColumnsFull();
    LinesArrangement(0, derivationValues, AllColumns);
  }

  /**
   * The back rank determines the index: two indices in 0..959 with the same
   * arrangement are the same index, so the 960 indices give 960 different
   * back ranks.
   */
  lemma ArrangementDeterminesIndex(n: int, m: int)
    requires 0 <= n < 960 && 0 <= m < 960
    requires BaseColumns(DerivationValues(n)) == BaseColumns(DerivationValues(m))
    ensures n == m
  {
    AllColumnsFull();
    LinesSucceed(0, DerivationValues(n), AllColumns);
    LinesSucceed(0, DerivationValues(m), AllColumns);
    LinesInjective(0, DerivationValues(n), DerivationValues(m), AllColumns);
    DerivationValuesInjective(n, m);
  }

  /**
   * The first knight stands left of the second: "knight2" reads the list
   * after "knight1"'s column is gone, at an index no smaller than the first's.
   */
  lemma KnightOrder(derivationValues: map<string, int>)
    requires ValidDerivation(derivationValues)
    ensures BaseColumns(derivationValues)[3] < BaseColumns(derivationValues)[4]
  {
    var n4 := derivationValues["n4"];
    AllColumnsFull();
    LinesQueenAndKnights(0, derivationValues, AllColumns);
    KnightTables(n4);
    var c2 := FreeAfterBishops(derivationValues["b1"], derivationValues["b2"], AllColumns);
    var c3 := TakeEntry(c2, derivationValues["q"]);
    TakeEntryLater(c3, FirstKnightIndex(n4), SecondKnightIndex(n4));
  }

  /**
   * A Chess960 back rank as columns in the order of the placement lines
   * (bishop, bishop, queen, knight, knight, rook, king, rook): every column
   * once, the first bishop on an odd and the second on an even column, and
   * the knights and the rooks each listed left to right.
   */
  ghost predicate Chess960Arrangement(cs: seq<int>) {
    && |cs| == 8
    && (forall c :: c in cs <==> InRange(c))
    && (forall i, j :: 0 <= i < j < 8 ==> cs[i] != cs[j])
    && cs[0] % 2 == 1 && cs[1] % 2 == 0
    && cs[3] < cs[4] && cs[5] < cs[7]
  }

  /**
   * Two such arrangements that put the same kind of piece on every column
   * are the same arrangement: the queen and the king are alone of their
   * kind, the bishops differ in parity, and the knights and the rooks are
   * listed in column order.
   */
  lemma ArrangementFromKinds(cs: seq<int>, ds: seq<int>)
    requires Chess960Arrangement(cs) && Chess960Arrangement(ds)
    requires forall k, j :: 0 <= k < 8 && 0 <= j < 8 && cs[k] == ds[j] ==> BaseLineKinds[k] == BaseLineKinds[j]
    ensures cs == ds
  {
    forall k | 0 <= k < 8 ensures exists j :: 0 <= j < 8 && ds[j] == cs[k] {
      assert cs[k] in cs;
      assert cs[k] in ds;
    }
    var j0 :| 0 <= j0 < 8 && ds[j0] == cs[0];
    var j1 :| 0 <= j1 < 8 && ds[j1] == cs[1];
    var j2 :| 0 <= j2 < 8 && ds[j2] == cs[2];
    var j3 :| 0 <= j3 < 8 && ds[j3] == cs[3];
    var j4 :| 0 <= j4 < 8 && ds[j4] == cs[4];
    var j5 :| 0 <= j5 < 8 && ds[j5] == cs[5];
    var j6 :| 0 <= j6 < 8 && ds[j6] == cs[6];
    var j7 :| 0 <= j7 < 8 && ds[j7] == cs[7];
    assert j0 == 0 && j1 == 1 && j2 == 2 && j6 == 6;
    assert j3 == 3 && j4 == 4;
    assert j5 == 5 && j7 == 7;
  }

  /** The lines of the bishops and the queen take three columns off a list with nothing taken. */
  lemma ThreeTaken(row: int, derivationValues: map<string, int>, cols: seq<int>)
    requires ValidDerivation(derivationValues) && FullColumns(cols)
    ensures PlaceRange(row, Lines(derivationValues), 0, 3, cols).result.Success?
    ensures |PlaceRange(row, Lines(derivationValues), 0, 3, cols).rest| == 5
  {
    var lines := Lines(derivationValues);
    BishopsFirst(row, derivationValues, cols);
    PlaceRangeSplit(row, lines, 0, 2, 3, cols);
    PlaceRangeTakesEntries(row, lines, 2, 3, PlaceRange(row, lines, 0, 2, cols).rest);
  }

  /** What makeBaseLine(row, color) yields with the corrected lines on a fresh list. */
  function BaseLinePieces(row: int, color: Color, derivationValues: map<string, int>): (pieces: seq<PlacedPiece>)
    requires ValidDerivation(derivationValues)
    ensures |pieces| == 8
  {
    AllColumnsFull();
    LinesSucceed(row, derivationValues, AllColumns);
    PlaceRangePositions(row, Lines(derivationValues), 0, 8, AllColumns);
    Yield(BaseLine(row, derivationValues).result.value, color)
  }

  /** The corrected makeBaseLine(row, color) yields piece kind k of the line on column k of BaseColumns. */
  lemma BaseLinePiecesPlaced(row: int, color: Color, derivationValues: map<string, int>)
    requires ValidDerivation(derivationValues)
    ensures forall k :: 0 <= k < 8 ==>
      BaseLinePieces(row, color, derivationValues)[k] ==
      PlacedPiece(Position(row, BaseColumns(derivationValues)[k]), Piece(BaseLineKinds[k], color))
  {
    BaseLineOnRow(row, derivationValues);
  }

  /**
   * The first three lines of makeBaseLine(row, color) with the corrected
   * names and values, on the list of one colour: the bishops, then the queen,
   * whose index is in range on the six columns left.
   */
  method PlaceBishopsAndQueen(setup: BackRankSetup, row: int) returns (r: seq<Position>)
    requires setup.Valid() && ValidDerivation(setup.derivationValues) && FullColumns(setup.availableCols)
    modifies setup
    ensures setup.Valid()
    ensures PlaceOutcome(Success(r), setup.availableCols) ==
            PlaceRange(row, Lines(setup.derivationValues), 0, 3, old(setup.availableCols))
  {
    NamesSelectCases();
    var dv := setup.derivationValues;
    ghost var c0 := setup.availableCols;
    var p1 := setup.Place(row, dv["b1"], "bishopOdd");
    ghost var c1 := setup.availableCols;
    var p2 := setup.Place(row, dv["b2"], "bishopEven");
    ghost var c2 := setup.availableCols;
    BishopStepsLeaveSix(row, dv, c0, c1, c2, p1.value, p2.value);
    var p3 := setup.Place(row, dv["q"], "queen");
    PlaceRangeOfSteps(row, Lines(dv), 0, 3, [c0, c1, c2, setup.availableCols], [p1.value, p2.value, p3.value]);
    r := [p1.value, p2.value, p3.value];
  }

  /**
   * The last five lines of makeBaseLine(row, color) with the corrected names,
   * on the five columns the bishops and the queen left: knights, rook, king
   * and rook each take one column.
   */
  method PlaceKnightsRooksAndKing(setup: BackRankSetup, row: int) returns (r: seq<Position>)
    requires setup.Valid() && ValidDerivation(setup.derivationValues) && |setup.availableCols| == 5
    modifies setup
    ensures setup.Valid()
    ensures PlaceOutcome(Success(r), setup.availableCols) ==
            PlaceRange(row, Lines(setup.derivationValues), 3, 8, old(setup.availableCols))
  {
    NamesSelectCases();
    var dv := setup.derivationValues;
    var lines := Lines(dv);
    KnightTables(dv["n4"]);
    ghost var c0 := setup.availableCols;
    var p4 := setup.Place(row, dv["n4"], "knight1");
    ghost var c1 := setup.availableCols;
    EntryStepLength(row, lines[3], c0, p4.value, c1);
    var p5 := setup.Place(row, dv["n4"], "knight2");
    ghost var c2 := setup.availableCols;
    EntryStepLength(row, lines[4], c1, p5.value, c2);
    var p6 := setup.Place(row, 0, "rook1");
    ghost var c3 := setup.availableCols;
    EntryStepLength(row, lines[5], c2, p6.value, c3);
    var p7 := setup.Place(row, 0, "king");
    ghost var c4 := setup.availableCols;
    EntryStepLength(row, lines[6], c3, p7.value, c4);
    var p8 := setup.Place(row, 0, "rook2");
    PlaceRangeOfSteps(row, lines, 3, 8, [c0, c1, c2, c3, c4, setup.availableCols],
                      [p4.value, p5.value, p6.value, p7.value, p8.value]);
    r := [p4.value, p5.value, p6.value, p7.value, p8.value];
  }

  /**
   * makeBaseLine(row, color) with the corrected lines, on a list of free
   * columns of its own: it never throws, and yields BaseLinePieces.
   */
  method MakeBaseLine(derivationValues: map<string, int>, row: int, color: Color) returns (pieces: seq<PlacedPiece>)
    requires ValidDerivation(derivationValues)
    ensures pieces == BaseLinePieces(row, color, derivationValues)
  {
    var setup := new BackRankSetup(derivationValues);
    AllColumnsFull();
    PlaceRangeSplit(row, Lines(derivationValues), 0, 3, 8, AllColumns);
    ThreeTaken(row, derivationValues, AllColumns);
    var first := PlaceBishopsAndQueen(setup, row);
    var rest := PlaceKnightsRooksAndKing(setup, row);
    PlaceRangePositions(row, Lines(derivationValues), 0, 8, AllColumns);
    pieces := Yield(first + rest, color);
  }

  /**
   * One list shared by both colours does not work even with the corrected
   * lines: White's back rank uses up the list, and on what is left Black's
   * queen index is out of range.
   */
  lemma SharedListThrows(derivationValues: map<string, int>)
    requires ValidDerivation(derivationValues)
    ensures BaseLine(0, derivationValues).rest == []
    ensures PlaceRange(7, Lines(derivationValues), 0, 8, BaseLine(0, derivationValues).rest) ==
            PlaceOutcome(Failure(IndexOutOfRange), [])
  {
    BaseLineOnRow(0, derivationValues);
    var lines := Lines(derivationValues);
    ListFreeStep(7, lines[0], []);
    ListFreeStep(7, lines[1], []);
    PlaceRangeThrowsAfterSteps(7, lines, 0, 8, [[], [], []],
                               [Position(7, lines[0].pieceCase.FixedColumn(lines[0].derVal)),
                                Position(7, lines[1].pieceCase.FixedColumn(lines[1].derVal))]);
  }

  // ---- makePieces and CreateGame ----

  /** A square of the board on one of the given rows. */
  predicate OnRows(p: Position, rows: set<int>) {
    p.row in rows && InRange(p.column)
  }

  /** Column c of each of the rows 0, 1, 6 and 7 holds a piece. */
  predicate OnBackRanks(board: Board, c: int) {
    Position(0, c) in board && Position(1, c) in board && Position(6, c) in board && Position(7, c) in board
  }

  /** makePieces(pawnRow, baseRow, color) on values, with the corrected base line. */
  function Pieces(pawnRow: int, baseRow: int, color: Color, derivationValues: map<string, int>): Result<Board, SetupError>
    requires ValidDerivation(derivationValues) && InRange(pawnRow)
  {
    Chess960Rulebook.AddAll(map[], BaseLinePieces(baseRow, color, derivationValues) + Chess960Rulebook.MakePawns(pawnRow, color))
  }

  /** A back rank on distinct columns and the pawns of another row: sixteen different squares, the two rows. */
  lemma TwoRowsSquares(base: seq<PlacedPiece>, pawns: seq<PlacedPiece>, baseRow: int, pawnRow: int, cs: seq<int>, color: Color)
    requires baseRow != pawnRow && |base| == 8 && |cs| == 8 && |pawns| == 8
    requires forall i, j :: 0 <= i < j < 8 ==> cs[i] != cs[j]
    requires forall c :: c in cs <==> InRange(c)
    requires forall k :: 0 <= k < 8 ==> base[k] == PlacedPiece(Position(baseRow, cs[k]), Piece(BaseLineKinds[k], color))
    requires forall i :: 0 <= i < 8 ==> pawns[i] == PlacedPiece(Position(pawnRow, i), Piece(Pawn, color))
    ensures Chess960Rulebook.DistinctPositions(base + pawns)
    ensures forall p :: p in Chess960Rulebook.PositionsOf(base + pawns) <==> OnRows(p, {baseRow, pawnRow})
  {
    var all := base + pawns;
    forall i, j | 0 <= i < j < |all| ensures all[i].position != all[j].position {
      if j < 8 {
        assert all[i] == base[i] && all[j] == base[j];
      } else if i >= 8 {
        assert all[i] == pawns[i - 8] && all[j] == pawns[j - 8];
      } else {
        assert all[i] == base[i] && all[j] == pawns[j - 8];
      }
    }
    forall p ensures p in Chess960Rulebook.PositionsOf(all) <==> OnRows(p, {baseRow, pawnRow}) {
      if p in Chess960Rulebook.PositionsOf(all) {
        var i :| 0 <= i < |all| && all[i].position == p;
        if i < 8 {
          assert all[i] == base[i] && cs[i] in cs;
        } else {
          assert all[i] == pawns[i - 8];
        }
      }
      if p.row == baseRow && InRange(p.column) {
        assert p.column in cs;
        var k :| 0 <= k < 8 && cs[k] == p.column;
        assert all[k].position == p;
      } else if p.row == pawnRow && InRange(p.column) {
        assert all[8 + p.column].position == p;
      }
    }
  }

  /** The fold of makePieces over pieces on distinct squares: it does not throw, and the board holds their squares. */
  lemma FoldDistinct(all: seq<PlacedPiece>)
    requires Chess960Rulebook.DistinctPositions(all)
    ensures var r := Chess960Rulebook.AddAll(map[], all);
      r.Success? && |r.value| == |all| && r.value.Keys == Chess960Rulebook.PositionsOf(all)
  {
    Chess960Rulebook.AddAllOutcome(map[], all);
    Chess960Rulebook.AddAllKeys(map[], all);
  }

  /** The pieces of a fold over a back rank and a row of pawns stand where the two rows put them. */
  lemma FoldTwoRowsValues(base: seq<PlacedPiece>, pawns: seq<PlacedPiece>, baseRow: int, pawnRow: int, cs: seq<int>, color: Color)
    requires |base| == 8 && |cs| == 8 && |pawns| == 8
    requires Chess960Rulebook.DistinctPositions(base + pawns)
    requires forall k :: 0 <= k < 8 ==> base[k] == PlacedPiece(Position(baseRow, cs[k]), Piece(BaseLineKinds[k], color))
    requires forall i :: 0 <= i < 8 ==> pawns[i] == PlacedPiece(Position(pawnRow, i), Piece(Pawn, color))
    ensures var r := Chess960Rulebook.AddAll(map[], base + pawns);
      r.Success? &&
      (forall c :: 0 <= c < 8 ==> Position(pawnRow, c) in r.value && r.value[Position(pawnRow, c)] == Piece(Pawn, color)) &&
      (forall k :: 0 <= k < 8 ==> Position(baseRow, cs[k]) in r.value && r.value[Position(baseRow, cs[k])] == Piece(BaseLineKinds[k], color))
  {
    var all := base + pawns;
    Chess960Rulebook.AddAllOutcome(map[], all);
    Chess960Rulebook.AddAllValues(map[], all);
    var board := Chess960Rulebook.AddAll(map[], all).value;
    forall c | 0 <= c < 8 ensures Position(pawnRow, c) in board && board[Position(pawnRow, c)] == Piece(Pawn, color) {
      assert all[8 + c] == pawns[c];
    }
    forall k | 0 <= k < 8 ensures Position(baseRow, cs[k]) in board && board[Position(baseRow, cs[k])] == Piece(BaseLineKinds[k], color) {
      assert all[k] == base[k];
    }
  }

  /**
   * The fold of makePieces over a back rank on distinct columns and a row of
   * pawns on another row: it does not throw, and the board holds the sixteen
   * pieces on exactly the squares of the two rows.
   */
  lemma FoldTwoRows(base: seq<PlacedPiece>, pawns: seq<PlacedPiece>, baseRow: int, pawnRow: int, cs: seq<int>, color: Color)
    requires baseRow != pawnRow && |base| == 8 && |cs| == 8 && |pawns| == 8
    requires forall i, j :: 0 <= i < j < 8 ==> cs[i] != cs[j]
    requires forall c :: c in cs <==> InRange(c)
    requires forall k :: 0 <= k < 8 ==> base[k] == PlacedPiece(Position(baseRow, cs[k]), Piece(BaseLineKinds[k], color))
    requires forall i :: 0 <= i < 8 ==> pawns[i] == PlacedPiece(Position(pawnRow, i), Piece(Pawn, color))
    ensures var r := Chess960Rulebook.AddAll(map[], base + pawns);
      r.Success? && |r.value| == 16 &&
      (forall p :: p in r.value <==> OnRows(p, {baseRow, pawnRow})) &&
      (forall c :: 0 <= c < 8 ==> Position(pawnRow, c) in r.value && r.value[Position(pawnRow, c)] == Piece(Pawn, color)) &&
      (forall k :: 0 <= k < 8 ==> Position(baseRow, cs[k]) in r.value && r.value[Position(baseRow, cs[k])] == Piece(BaseLineKinds[k], color))
  {
    TwoRowsSquares(base, pawns, baseRow, pawnRow, cs, color);
    FoldDistinct(base + pawns);
    FoldTwoRowsValues(base, pawns, baseRow, pawnRow, cs, color);
  }

  /**
   * With the back rank and the pawns on different rows, the fold of makePieces
   * does not throw: it holds sixteen pieces, on exactly the squares of the
   * two rows, the base line in the kinds and on the columns the placement
   * lines give, and a pawn on every square of the pawn row.
   */
  lemma PiecesSucceed(pawnRow: int, baseRow: int, color: Color, derivationValues: map<string, int>)
    requires ValidDerivation(derivationValues) && InRange(pawnRow) && pawnRow != baseRow
    ensures var r := Pieces(pawnRow, baseRow, color, derivationValues);
      r.Success? && |r.value| == 16 &&
      (forall p :: p in r.value <==> OnRows(p, {baseRow, pawnRow})) &&
      (forall c :: 0 <= c < 8 ==> Position(pawnRow, c) in r.value && r.value[Position(pawnRow, c)] == Piece(Pawn, color)) &&
      (forall k :: 0 <= k < 8 ==>
         Position(baseRow, BaseColumns(derivationValues)[k]) in r.value &&
         r.value[Position(baseRow, BaseColumns(derivationValues)[k])] == Piece(BaseLineKinds[k], color))
  {
    BaseLinePiecesPlaced(baseRow, color, derivationValues);
    BaseColumnsArrangement(derivationValues);
    FoldTwoRows(BaseLinePieces(baseRow, color, derivationValues), Chess960Rulebook.MakePawns(pawnRow, color),
                baseRow, pawnRow, BaseColumns(derivationValues), color);
  }

  /** ImmutableSortedDictionary.AddRange: the union of two boards, which throws on a key both hold. */
  function AddRange(board: Board, other: Board): (r: Result<Board, SetupError>)
    ensures r.Success? <==> board.Keys !! other.Keys
    ensures r.Success? ==>
      r.value.Keys == board.Keys + other.Keys &&
      (forall p :: p in board ==> r.value[p] == board[p]) &&
      (forall p :: p in other ==> r.value[p] == other[p])
    ensures r.Failure? ==> r.error == DuplicateKey
  {
    if board.Keys !! other.Keys then Success(board + other) else Failure(DuplicateKey)
  }

  /**
   * CreateGame on values: White's pieces, Black's pieces, their union, White
   * to move. It can only throw the duplicate-key error, and a game it makes
   * has White active, Black passive and no update yet.
   */
  function StartingGame(derivationValues: map<string, int>): (r: Result<ChessGame, SetupError>)
    requires ValidDerivation(derivationValues)
    ensures r.Failure? ==> r.error == DuplicateKey
    ensures r.Success? ==>
      r.value.activePlayer == Player(White) && r.value.passivePlayer == Player(Black) && r.value.lastUpdate == None
  {
    var whitePieces :- Pieces(1, 0, White, derivationValues);
    var blackPieces :- Pieces(6, 7, Black, derivationValues);
    var board :- AddRange(whitePieces, blackPieces);
    Success(ChessGame(board, Player(White), Player(Black), None))
  }

  /** White's pieces on rows 0 and 1 and Black's on rows 6 and 7 share no square: 32 pieces on the four rows. */
  lemma UnionSize(white: Board, black: Board)
    requires |white| == 16 && |black| == 16
    requires forall p :: p in white <==> OnRows(p, {0, 1})
    requires forall p :: p in black <==> OnRows(p, {6, 7})
    ensures white.Keys !! black.Keys && |white + black| == 32
    ensures forall p :: p in white + black <==> OnRows(p, {0, 1, 6, 7})
  {
    assert white.Keys !! black.Keys by {
      forall p | p in white.Keys ensures p !in black.Keys {
      }
    }
    var board := white + black;
    assert board.Keys == white.Keys + black.Keys;
    assert |board.Keys| == |white.Keys| + |black.Keys|;
    forall p ensures p in board <==> OnRows(p, {0, 1, 6, 7}) {
      assert OnRows(p, {0, 1, 6, 7}) <==> OnRows(p, {0, 1}) || OnRows(p, {6, 7});
    }
  }

  /**
   * In the union of White's and Black's pieces, each back rank on the columns
   * cs in the kinds of the placement lines, Black's back rank faces White's
   * kind for kind, and the pawns fill rows 1 and 6.
   */
  lemma UnionContents(white: Board, black: Board, cs: seq<int>)
    requires white.Keys !! black.Keys && |cs| == 8
    requires forall c :: c in cs <==> InRange(c)
    requires forall c :: 0 <= c < 8 ==>
      Position(1, c) in white && white[Position(1, c)] == Piece(Pawn, White) &&
      Position(6, c) in black && black[Position(6, c)] == Piece(Pawn, Black)
    requires forall k :: 0 <= k < 8 ==>
      Position(0, cs[k]) in white && white[Position(0, cs[k])] == Piece(BaseLineKinds[k], White) &&
      Position(7, cs[k]) in black && black[Position(7, cs[k])] == Piece(BaseLineKinds[k], Black)
    ensures var board := white + black;
      (forall c :: 0 <= c < 8 ==>
         OnBackRanks(board, c) &&
         board[Position(1, c)] == Piece(Pawn, White) && board[Position(6, c)] == Piece(Pawn, Black) &&
         board[Position(0, c)].color == White && board[Position(0, c)].kind != Pawn &&
         board[Position(7, c)] == Piece(board[Position(0, c)].kind, Black)) &&
      (forall k :: 0 <= k < 8 ==> Position(0, cs[k]) in board && board[Position(0, cs[k])] == Piece(BaseLineKinds[k], White))
  {
    var board := white + black;
    forall c | 0 <= c < 8
      ensures OnBackRanks(board, c)
      ensures board[Position(1, c)] == Piece(Pawn, White) && board[Position(6, c)] == Piece(Pawn, Black)
      ensures board[Position(0, c)].color == White && board[Position(0, c)].kind != Pawn
      ensures board[Position(7, c)] == Piece(board[Position(0, c)].kind, Black)
    {
      assert InRange(c);
      var k :| 0 <= k < 8 && cs[k] == c;
      assert board[Position(0, c)] == white[Position(0, cs[k])];
      assert board[Position(7, c)] == black[Position(7, cs[k])];
    }
  }

  /**
   * The corrected CreateGame never throws. White is active and Black
   * passive, no update has been made, and the board holds 32 pieces: White's
   * pawns on row 1 and back rank on row 0, Black's pawns on row 6 and back
   * rank on row 7, the back rank in the Chess960 arrangement of the
   * derivation values, and Black's back rank facing White's, kind for kind.
   */
  lemma StartingGameFacts(derivationValues: map<string, int>)
    requires ValidDerivation(derivationValues)
    ensures var r := StartingGame(derivationValues);
      r.Success? &&
      var g := r.value;
      g.activePlayer == Player(White) && g.passivePlayer == Player(Black) && g.lastUpdate == None &&
      |g.board| == 32 &&
      (forall p :: p in g.board <==> OnRows(p, {0, 1, 6, 7})) &&
      (forall c :: 0 <= c < 8 ==>
         OnBackRanks(g.board, c) &&
         g.board[Position(1, c)] == Piece(Pawn, White) && g.board[Position(6, c)] == Piece(Pawn, Black) &&
         g.board[Position(0, c)].color == White && g.board[Position(0, c)].kind != Pawn &&
         g.board[Position(7, c)] == Piece(g.board[Position(0, c)].kind, Black)) &&
      (forall k :: 0 <= k < 8 ==>
         Position(0, BaseColumns(derivationValues)[k]) in g.board &&
         g.board[Position(0, BaseColumns(derivationValues)[k])] == Piece(BaseLineKinds[k], White))
  {
    PiecesSucceed(1, 0, White, derivationValues);
    PiecesSucceed(6, 7, Black, derivationValues);
    var white, black := Pieces(1, 0, White, derivationValues).value, Pieces(6, 7, Black, derivationValues).value;
    UnionSize(white, black);
    assert StartingGame(derivationValues) == Success(ChessGame(white + black, Player(White), Player(Black), None));
    BaseColumnsArrangement(derivationValues);
    UnionContents(white, black, BaseColumns(derivationValues));
  }

  /**
   * The game determines the index: two indices in 0..959 whose games are
   * equal are the same index, so the 960 indices set up 960 different boards.
   */
  lemma StartingGameDeterminesIndex(n: int, m: int)
    requires 0 <= n < 960 && 0 <= m < 960
    ensures StartingGame(DerivationValues(n)) == StartingGame(DerivationValues(m)) ==> n == m
  {
    var dv, dw := DerivationValues(n), DerivationValues(m);
    if StartingGame(dv) == StartingGame(dw) {
      StartingGameFacts(dv);
      StartingGameFacts(dw);
      BaseColumnsArrangement(dv);
      BaseColumnsArrangement(dw);
      KnightOrder(dv);
      KnightOrder(dw);
      var cs, ds := BaseColumns(dv), BaseColumns(dw);
      var board := StartingGame(dv).value.board;
      forall k, j | 0 <= k < 8 && 0 <= j < 8 && cs[k] == ds[j] ensures BaseLineKinds[k] == BaseLineKinds[j] {
        assert board[Position(0, cs[k])] == Piece(BaseLineKinds[k], White);
        assert board[Position(0, ds[j])] == Piece(BaseLineKinds[j], White);
      }
      ArrangementFromKinds(cs, ds);
      ArrangementDeterminesIndex(n, m);
    }
  }

  /** makePieces(pawnRow, baseRow, color) with the corrected base line. */
  method MakePieces(derivationValues: map<string, int>, pawnRow: int, baseRow: int, color: Color) returns (r: Result<Board, SetupError>)
    requires ValidDerivation(derivationValues) && InRange(pawnRow)
    ensures r == Pieces(pawnRow, baseRow, color, derivationValues)
  {
    var pawns := Chess960Rulebook.MakePawns(pawnRow, color);
    var baseLine := MakeBaseLine(derivationValues, baseRow, color);
    r := Chess960Rulebook.AddAll(map[], baseLine + pawns);
  }

  /**
   * CreateGame with the corrected set-up, for the random index n in 0..959:
   * it never throws and gives StartingGame of the derivation values of n.
   */
  method CreateGame(n: int) returns (game: ChessGame)
    requires 0 <= n < 960
    ensures Success(game) == StartingGame(DerivationValues(n))
    ensures game.activePlayer == Player(White) && game.passivePlayer == Player(Black)
    ensures |game.board| == 32
  {
    var derivationValues := GetDerivationValues(n);
    StartingGameFacts(derivationValues);
    var whitePlayer := Player(White);
    var whitePieces := MakePieces(derivationValues, 1, 0, White);
    var blackPlayer := Player(Black);
    var blackPieces := MakePieces(derivationValues, 6, 7, Black);
    var board := AddRange(whitePieces.value, blackPieces.value);
    game := ChessGame(board.value, whitePlayer, blackPlayer, None);
  }
}
