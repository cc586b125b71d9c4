/**
 * The placement half of makeBaseLine in Chess.Model/Rule/Chess960Rulebook.cs.
 * Each of its eight placement lines derives a position from the list of free
 * columns with the derivation constructor of Position, then removes that
 * position's column from the list when the list holds it. An Instruction is
 * one such line (the piece name and the derivation value it passes), and
 * PlaceRange runs a run of instructions in order; the lemmas here hold for
 * every instruction list, the rulebooks instantiate them with their own.
 */
module BackRanks {
  import opened Wrappers
  import opened Positions
  import opened FreeColumns
  import opened ChessGames

  /** What the setup can throw: a list index out of range, or a key added twice to a board. */
  datatype SetupError = IndexOutOfRange | DuplicateKey

  /** The outcome of one placement step: the derived position and the free columns left. */
  datatype Step = Step(position: Position, rest: seq<int>)

  /** One placement line: derive the position, then remove its column if the list holds it. */
  function PlaceStep(row: int, derVal: int, c: PieceCase, cols: seq<int>): (s: Step)
    requires c.Defined(derVal, |cols|)
    ensures s.position.row == row
    ensures c.ListFree() ==> s.position.column == c.FixedColumn(derVal)
    ensures !c.ListFree() && 0 <= derVal <= 9 ==> |s.rest| == |cols| - 1
    ensures |s.rest| == |cols| ==> s.rest == cols
  {
    var p := Position(row, c.Column(derVal, cols));
    RemoveFirstLength(cols, p.column);
    Step(p, RemoveFirst(cols, p.column))
  }

  /**
   * A step on a sorted list of board columns: the position is on the given
   * row, the list left is still sorted, and it holds exactly the old columns
   * other than the position's; it shrinks by one exactly when the column was free.
   */
  lemma PlaceStepFacts(row: int, derVal: int, c: PieceCase, cols: seq<int>)
    requires c.Defined(derVal, |cols|) && SortedColumns(cols)
    ensures PlaceStep(row, derVal, c, cols).position.row == row
    ensures SortedColumns(PlaceStep(row, derVal, c, cols).rest)
    ensures forall x :: x in PlaceStep(row, derVal, c, cols).rest <==>
              x in cols && x != PlaceStep(row, derVal, c, cols).position.column
    ensures |PlaceStep(row, derVal, c, cols).rest| ==
              if PlaceStep(row, derVal, c, cols).position.column in cols then |cols| - 1 else |cols|
  {
    var p := PlaceStep(row, derVal, c, cols).position;
    RemoveFirstKeepsOrder(cols, p.column);
    RemoveFirstMembers(cols, p.column);
    RemoveFirstLength(cols, p.column);
  }

  /** One placement line of makeBaseLine: the switch case its piece name selects, and its derivation value. */
  datatype Instruction = Instruction(pieceCase: PieceCase, derVal: int)

  /** The positions a run of placement lines derived (or what it threw), and the free columns left. */
  datatype PlaceOutcome = PlaceOutcome(result: Result<seq<Position>, SetupError>, rest: seq<int>)

  function Prepend(p: Position, r: Result<seq<Position>, SetupError>): Result<seq<Position>, SetupError> {
    match r
    case Failure(e) => Failure(e)
    case Success(ps) => Success([p] + ps)
  }

  function Concat(ps: seq<Position>, r: Result<seq<Position>, SetupError>): Result<seq<Position>, SetupError> {
    match r
    case Failure(e) => Failure(e)
    case Success(qs) => Success(ps + qs)
  }

  /**
   * Runs the placement lines ins[from..to] on the free columns cols. A line
   * whose list index is out of range throws IndexOutOfRange; the free-column
   * list keeps the removals of the lines before it.
   */
  function PlaceRange(row: int, ins: seq<Instruction>, from: nat, to: nat, cols: seq<int>): (o: PlaceOutcome)
    requires from <= to <= |ins|
    ensures o.result.Failure? ==> o.result.error == IndexOutOfRange
    ensures o.result.Success? ==> |o.result.value| == to - from
    ensures |cols| - (to - from) <= |o.rest| <= |cols|
    decreases |ins| - from
  {
    if from == to then PlaceOutcome(Success([]), cols)
    else if !ins[from].pieceCase.Defined(ins[from].derVal, |cols|) then
      PlaceOutcome(Failure(IndexOutOfRange), cols)
    else
      var s := PlaceStep(row, ins[from].derVal, ins[from].pieceCase, cols);
      var later := PlaceRange(row, ins, from + 1, to, s.rest);
      PlaceOutcome(Prepend(s.position, later.result), later.rest)
  }

  /**
   * A run whose lines each match a step, from the list before to the list
   * after, gives the matched positions and leaves the last list.
   */
  lemma {:induction false} PlaceRangeOfSteps(row: int, ins: seq<Instruction>, from: nat, to: nat, cs: seq<seq<int>>, ps: seq<Position>)
    requires from + |ps| == to <= |ins| && |cs| == |ps| + 1
    requires forall k :: 0 <= k < |ps| ==> StepMatches(row, ins[from + k], cs[k], ps[k], cs[k + 1])
    ensures PlaceRange(row, ins, from, to, cs[0]) == PlaceOutcome(Success(ps), cs[|ps|])
    decreases |ps|
  {
    if ps != [] {
      forall k | 0 <= k < |ps| - 1
        ensures StepMatches(row, ins[from + 1 + k], cs[1..][k], ps[1..][k], cs[1..][k + 1])
      {
        assert StepMatches(row, ins[from + (k + 1)], cs[k + 1], ps[k + 1], cs[k + 1 + 1]);
      }
      PlaceRangeOfSteps(row, ins, from + 1, to, cs[1..], ps[1..]);
      assert ps == [ps[0]] + ps[1..];
      assert StepMatches(row, ins[from], cs[0], ps[0], cs[1]);
    }
  }

  /**
   * A run whose first lines each match a step, and whose next line's index
   * is out of range for the list those steps left, throws there with that
   * list.
   */
  lemma {:induction false} PlaceRangeThrowsAfterSteps(row: int, ins: seq<Instruction>, from: nat, to: nat, cs: seq<seq<int>>, ps: seq<Position>)
    requires from + |ps| < to <= |ins| && |cs| == |ps| + 1
    requires forall k :: 0 <= k < |ps| ==> StepMatches(row, ins[from + k], cs[k], ps[k], cs[k + 1])
    requires !ins[from + |ps|].pieceCase.Defined(ins[from + |ps|].derVal, |cs[|ps|]|)
    ensures PlaceRange(row, ins, from, to, cs[0]) == PlaceOutcome(Failure(IndexOutOfRange), cs[|ps|])
    decreases |ps|
  {
    if ps != [] {
      forall k | 0 <= k < |ps| - 1
        ensures StepMatches(row, ins[from + 1 + k], cs[1..][k], ps[1..][k], cs[1..][k + 1])
      {
        assert StepMatches(row, ins[from + (k + 1)], cs[k + 1], ps[k + 1], cs[k + 1 + 1]);
      }
      PlaceRangeThrowsAfterSteps(row, ins, from + 1, to, cs[1..], ps[1..]);
      assert StepMatches(row, ins[from], cs[0], ps[0], cs[1]);
    }
  }

  /** The columns of a list of positions. */
  function Columns(ps: seq<Position>): (cs: seq<int>)
    ensures |cs| == |ps| && forall i :: 0 <= i < |ps| ==> cs[i] == ps[i].column
  {
    seq(|ps|, i requires 0 <= i < |ps| => ps[i].column)
  }

  /**
   * A run that succeeds derives one position per line, all on the given row,
   * and a list-free line (a bishop or a name without a case) gets its fixed column.
   */
  lemma {:induction false} PlaceRangePositions(row: int, ins: seq<Instruction>, from: nat, to: nat, cols: seq<int>)
    requires from <= to <= |ins|
    ensures var o := PlaceRange(row, ins, from, to, cols);
      o.result.Success? ==>
        |o.result.value| == to - from &&
        (forall k :: 0 <= k < to - from ==>
           o.result.value[k].row == row &&
           (ins[from + k].pieceCase.ListFree() ==>
              o.result.value[k].column == ins[from + k].pieceCase.FixedColumn(ins[from + k].derVal)))
    decreases |ins| - from
  {
    if from < to && ins[from].pieceCase.Defined(ins[from].derVal, |cols|) {
      var s := PlaceStep(row, ins[from].derVal, ins[from].pieceCase, cols);
      PlaceRangePositions(row, ins, from + 1, to, s.rest);
      var later := PlaceRange(row, ins, from + 1, to, s.rest);
      if later.result.Success? {
        var ps := [s.position] + later.result.value;
        forall k | 0 < k < to - from ensures ps[k] == later.result.value[k - 1] && ins[from + k] == ins[from + 1 + (k - 1)] {
        }
      }
    }
  }

  /** A run on a sorted list of board columns leaves a sorted list holding only old columns. */
  lemma {:induction false} PlaceRangeRest(row: int, ins: seq<Instruction>, from: nat, to: nat, cols: seq<int>)
    requires from <= to <= |ins| && SortedColumns(cols)
    ensures var o := PlaceRange(row, ins, from, to, cols);
      SortedColumns(o.rest) && (forall c :: c in o.rest ==> c in cols)
    decreases |ins| - from
  {
    if from < to && ins[from].pieceCase.Defined(ins[from].derVal, |cols|) {
      var s := PlaceStep(row, ins[from].derVal, ins[from].pieceCase, cols);
      PlaceStepFacts(row, ins[from].derVal, ins[from].pieceCase, cols);
      PlaceRangeRest(row, ins, from + 1, to, s.rest);
    }
  }

  /**
   * A run does not throw when each line's index would be in range on a list
   * that lost one column per earlier line.
   */
  lemma {:induction false} PlaceRangeSucceeds(row: int, ins: seq<Instruction>, from: nat, to: nat, cols: seq<int>)
    requires from <= to <= |ins|
    requires forall k :: from <= k < to ==> ins[k].pieceCase.Defined(ins[k].derVal, |cols| - (k - from))
    ensures PlaceRange(row, ins, from, to, cols).result.Success?
    decreases |ins| - from
  {
    if from < to {
      assert ins[from].pieceCase.Defined(ins[from].derVal, |cols| - (from - from));
      var s := PlaceStep(row, ins[from].derVal, ins[from].pieceCase, cols);
      RemoveFirstLength(cols, s.position.column);
      forall k | from + 1 <= k < to
        ensures ins[k].pieceCase.Defined(ins[k].derVal, |s.rest| - (k - (from + 1)))
      {
        DefinedMonotone(ins[k].pieceCase, ins[k].derVal, |cols| - (k - from), |s.rest| - (k - (from + 1)));
      }
      PlaceRangeSucceeds(row, ins, from + 1, to, s.rest);
    }
  }

  /**
   * The row a run places on changes only the rows of its positions: whether
   * it throws, the columns it derives and the list it leaves are the same on
   * every row.
   */
  lemma {:induction false} PlaceRangeRowFree(row: int, other: int, ins: seq<Instruction>, from: nat, to: nat, cols: seq<int>)
    requires from <= to <= |ins|
    ensures var o, o' := PlaceRange(row, ins, from, to, cols), PlaceRange(other, ins, from, to, cols);
      o.rest == o'.rest && o.result.Success? == o'.result.Success? &&
      (o.result.Success? ==>
         |o.result.value| == |o'.result.value| &&
         forall k :: 0 <= k < |o.result.value| ==> o.result.value[k].column == o'.result.value[k].column)
    decreases |ins| - from
  {
    if from < to && ins[from].pieceCase.Defined(ins[from].derVal, |cols|) {
      var s := PlaceStep(row, ins[from].derVal, ins[from].pieceCase, cols);
      var s' := PlaceStep(other, ins[from].derVal, ins[from].pieceCase, cols);
      assert s.rest == s'.rest && s.position.column == s'.position.column;
      PlaceRangeRowFree(row, other, ins, from + 1, to, s.rest);
      var later, later' := PlaceRange(row, ins, from + 1, to, s.rest), PlaceRange(other, ins, from + 1, to, s.rest);
      if later.result.Success? {
        var ps, ps' := [s.position] + later.result.value, [s'.position] + later'.result.value;
        forall k | 0 < k < |ps| ensures ps[k].column == ps'[k].column {
          assert ps[k] == later.result.value[k - 1] && ps'[k] == later'.result.value[k - 1];
        }
      }
    }
  }

  /** Continues a run that stopped at mid with the lines mid..to. */
  function Then(first: PlaceOutcome, row: int, ins: seq<Instruction>, mid: nat, to: nat): PlaceOutcome
    requires mid <= to <= |ins|
  {
    match first.result
    case Failure(_) => first
    case Success(ps) =>
      var second := PlaceRange(row, ins, mid, to, first.rest);
      PlaceOutcome(Concat(ps, second.result), second.rest)
  }

  /** Running from..to is running from..mid and then mid..to on the list that is left. */
  lemma {:induction false} PlaceRangeSplit(row: int, ins: seq<Instruction>, from: nat, mid: nat, to: nat, cols: seq<int>)
    requires from <= mid <= to <= |ins|
    ensures PlaceRange(row, ins, from, to, cols) == Then(PlaceRange(row, ins, from, mid, cols), row, ins, mid, to)
    decreases |ins| - from
  {
    if from == mid {
      var second := PlaceRange(row, ins, mid, to, cols);
      if second.result.Success? {
        assert [] + second.result.value == second.result.value;
      }
    } else if ins[from].pieceCase.Defined(ins[from].derVal, |cols|) {
      var s := PlaceStep(row, ins[from].derVal, ins[from].pieceCase, cols);
      PlaceRangeSplit(row, ins, from + 1, mid, to, s.rest);
      var first := PlaceRange(row, ins, from + 1, mid, s.rest);
      if first.result.Success? {
        var second := PlaceRange(row, ins, mid, to, first.rest);
        if second.result.Success? {
          assert [s.position] + (first.result.value + second.result.value)
              == ([s.position] + first.result.value) + second.result.value;
        }
      }
    }
  }

  /** A run that succeeds starts with its first line's step and continues on the list that step left. */
  lemma PlaceRangeHead(row: int, ins: seq<Instruction>, from: nat, to: nat, cols: seq<int>)
    requires from < to <= |ins|
    requires PlaceRange(row, ins, from, to, cols).result.Success?
    ensures ins[from].pieceCase.Defined(ins[from].derVal, |cols|)
    ensures var s := PlaceStep(row, ins[from].derVal, ins[from].pieceCase, cols);
      PlaceRange(row, ins, from + 1, to, s.rest).result.Success? &&
      PlaceRange(row, ins, from, to, cols).result.value ==
        [s.position] + PlaceRange(row, ins, from + 1, to, s.rest).result.value
  {
  }

  /** A run that succeeds, split after a first part that gave ps and left rest: ps, then the second part on rest. */
  lemma PlaceRangeAfterPrefix(row: int, ins: seq<Instruction>, from: nat, mid: nat, to: nat, cols: seq<int>,
                              ps: seq<Position>, rest: seq<int>)
    requires from <= mid <= to <= |ins|
    requires PlaceRange(row, ins, from, mid, cols) == PlaceOutcome(Success(ps), rest)
    requires PlaceRange(row, ins, from, to, cols).result.Success?
    ensures PlaceRange(row, ins, mid, to, rest).result.Success?
    ensures PlaceRange(row, ins, from, to, cols).result.value == ps + PlaceRange(row, ins, mid, to, rest).result.value
  {
    PlaceRangeSplit(row, ins, from, mid, to, cols);
  }

  /** Line i, run on the list before, gives position p and leaves the list after. */
  predicate StepMatches(row: int, i: Instruction, before: seq<int>, p: Position, after: seq<int>) {
    i.pieceCase.Defined(i.derVal, |before|) && PlaceStep(row, i.derVal, i.pieceCase, before) == Step(p, after)
  }

  /** A list-free line matches the step to its fixed column, whatever the list. */
  lemma ListFreeStep(row: int, i: Instruction, before: seq<int>)
    requires i.pieceCase.ListFree()
    ensures StepMatches(row, i, before, Position(row, i.pieceCase.FixedColumn(i.derVal)),
                        RemoveFirst(before, i.pieceCase.FixedColumn(i.derVal)))
  {
    assert i.pieceCase.Defined(i.derVal, |before|);
  }

  /** A line that reads a list entry takes that column off the list: one column fewer. */
  lemma EntryStepLength(row: int, i: Instruction, before: seq<int>, p: Position, after: seq<int>)
    requires StepMatches(row, i, before, p, after)
    requires !i.pieceCase.ListFree() && 0 <= i.derVal <= 9
    ensures |after| == |before| - 1
  {
    RemoveFirstLength(before, p.column);
  }

  /** Two list-free lines in a row place their fixed columns and take them off the list. */
  lemma TwoListFreeSteps(row: int, ins: seq<Instruction>, from: nat, cols: seq<int>)
    requires from + 2 <= |ins|
    requires ins[from].pieceCase.ListFree() && ins[from + 1].pieceCase.ListFree()
    ensures var first, second := ins[from].pieceCase.FixedColumn(ins[from].derVal),
                                 ins[from + 1].pieceCase.FixedColumn(ins[from + 1].derVal);
      PlaceRange(row, ins, from, from + 2, cols) ==
      PlaceOutcome(Success([Position(row, first), Position(row, second)]),
                   RemoveFirst(RemoveFirst(cols, first), second))
  {
    var first, second := ins[from].pieceCase.FixedColumn(ins[from].derVal),
                         ins[from + 1].pieceCase.FixedColumn(ins[from + 1].derVal);
    var c1 := RemoveFirst(cols, first);
    ListFreeStep(row, ins[from], cols);
    ListFreeStep(row, ins[from + 1], c1);
    PlaceRangeOfSteps(row, ins, from, from + 2, [cols, c1, RemoveFirst(c1, second)],
                      [Position(row, first), Position(row, second)]);
  }

  /**
   * Taking a position's column off the list keeps the columns placed and
   * those left together the same as before.
   */
  lemma TakeColumnMultiset(p: Position, ps: seq<Position>, cols: seq<int>, rest: seq<int>)
    requires p.column in cols
    requires multiset(Columns(ps)) + multiset(rest) == multiset(RemoveFirst(cols, p.column))
    ensures multiset(Columns([p] + ps)) + multiset(rest) == multiset(cols)
  {
    var c := p.column;
    var placed := Columns(ps);
    assert Columns([p] + ps) == [c] + placed;
    RemoveFirstMultiset(cols, c);
    var left := multiset(cols) - multiset{c};
    assert multiset(placed) + multiset(rest) == left;
    assert multiset{c} + left == multiset(cols);
  }

  /**
   * A run that removed one column per line took each line's column from the
   * list: the columns placed and the columns left are, together, the old list.
   */
  lemma {:induction false} PlaceRangeMultiset(row: int, ins: seq<Instruction>, from: nat, to: nat, cols: seq<int>)
    requires from <= to <= |ins|
    requires PlaceRange(row, ins, from, to, cols).result.Success?
    requires |PlaceRange(row, ins, from, to, cols).rest| == |cols| - (to - from)
    ensures multiset(Columns(PlaceRange(row, ins, from, to, cols).result.value)) +
            multiset(PlaceRange(row, ins, from, to, cols).rest) == multiset(cols)
    decreases |ins| - from
  {
    if from == to {
      assert Columns(PlaceRange(row, ins, from, to, cols).result.value) == [];
    } else {
      var s := PlaceStep(row, ins[from].derVal, ins[from].pieceCase, cols);
      var later := PlaceRange(row, ins, from + 1, to, s.rest);
      RemoveFirstLength(cols, s.position.column);
      PlaceRangeMultiset(row, ins, from + 1, to, s.rest);
      TakeColumnMultiset(s.position, later.result.value, cols, later.rest);
    }
  }

  /** Lines that each read a list entry never miss: each removes one column. */
  lemma {:induction false} PlaceRangeTakesEntries(row: int, ins: seq<Instruction>, from: nat, to: nat, cols: seq<int>)
    requires from <= to <= |ins|
    requires forall k :: from <= k < to ==> !ins[k].pieceCase.ListFree() && 0 <= ins[k].derVal <= 9
    ensures var o := PlaceRange(row, ins, from, to, cols);
      (o.result.Success? ==> |o.rest| == |cols| - (to - from))
    decreases |ins| - from
  {
    if from < to && ins[from].pieceCase.Defined(ins[from].derVal, |cols|) {
      var s := PlaceStep(row, ins[from].derVal, ins[from].pieceCase, cols);
      RemoveFirstLength(cols, s.position.column);
      PlaceRangeTakesEntries(row, ins, from + 1, to, s.rest);
    }
  }

  /** The kinds makeBaseLine yields, in its order: two bishops, the queen, two knights, rook, king, rook. */
  const BaseLineKinds: seq<PieceKind> := [Bishop, Bishop, Queen, Knight, Knight, Rook, King, Rook]

  /** The yield statements of makeBaseLine: the eight placed positions with their pieces. */
  function Yield(positions: seq<Position>, color: Color): (pieces: seq<PlacedPiece>)
    requires |positions| == 8
    ensures |pieces| == 8
    ensures forall i :: 0 <= i < 8 ==> pieces[i].position == positions[i] && pieces[i].piece.color == color
    ensures forall i :: 0 <= i < 8 ==> pieces[i].piece.kind == BaseLineKinds[i]
  {
    seq(8, i requires 0 <= i < 8 => PlacedPiece(positions[i], Piece(BaseLineKinds[i], color)))
  }

  /**
   * The state makeBaseLine works on: the derivation values and the list of
   * free columns, both captured from CreateGame.
   */
  class BackRankSetup {
    const derivationValues: map<string, int>
    var availableCols: seq<int>

    ghost predicate Valid()
      reads this
    {
      SortedColumns(availableCols)
    }

    /** The state at the start of CreateGame: every column is free. */
    constructor (derivationValues: map<string, int>)
      ensures this.derivationValues == derivationValues
      ensures availableCols == AllColumns
      ensures Valid()
    {
      this.derivationValues := derivationValues;
      availableCols := AllColumns;
      AllColumnsSorted();
    }

    /** Removes column from the free list if the list holds it. */
    method RemoveIfPresent(column: int)
      requires Valid()
      modifies this
      ensures Valid()
      ensures availableCols == RemoveFirst(old(availableCols), column)
      ensures forall c :: c in availableCols <==> c in old(availableCols) && c != column
    {
      RemoveFirstKeepsOrder(availableCols, column);
      RemoveFirstMembers(availableCols, column);
      RemoveFirstAbsent(availableCols, column);
      if column in availableCols {
        availableCols := RemoveFirst(availableCols, column);
      }
    }

    /**
     * One placement line: derive a position from the free list, then take
     * its column off the list. The derivation constructor throws, leaving the
     * list as it was, when an index it reads is out of range.
     */
    method Place(row: int, derVal: int, pieceName: string) returns (r: Result<Position, SetupError>)
      requires Valid()
      modifies this
      ensures Valid()
      ensures r.Success? <==> CaseOf(pieceName).Defined(derVal, |old(availableCols)|)
      ensures r.Success? ==> StepMatches(row, Instruction(CaseOf(pieceName), derVal), old(availableCols), r.value, availableCols)
      ensures r.Failure? ==> r.error == IndexOutOfRange && availableCols == old(availableCols)
    {
      if !CaseOf(pieceName).Defined(derVal, |availableCols|) {
        return Failure(IndexOutOfRange);
      }
      var p := Position.Derive(row, derVal, pieceName, availableCols);
      RemoveIfPresent(p.column);
      r := Success(p);
    }
  }
}
