# Chess960 set-up and board coordinates, modelled in Dafny

This project models two files of the Chess.NET chess engine:

- `Chess.Model/Game/Position.cs` is the board coordinate. It has a validated
  constructor, the bounds-checked `Offset` step, equality by coordinate pair,
  and a second "derivation" constructor. That constructor turns a derivation
  value, a piece name and the list of free back-rank columns into a column.
- `Chess.Model/Rule/Chess960Rulebook.cs` is the Chess960 rulebook.
  `GetDerivationValues` splits an index into derivation values. `CreateGame`
  builds both back ranks from one shared list of free columns, adds the pawn
  rows and folds everything into a dictionary. `GetUpdates` turns a piece's
  candidate commands into legal updates.

Modules, one per concern:

| file | module | what it holds |
|---|---|---|
| `wrappers.dfy` | `Wrappers` | `Option` (the engine's `IMaybe`) and `Result` (a thrown exception) |
| `position.dfy` | `Positions` | `Position`, both constructors, `Offset`, `Equals`, the column tables |
| `game.dfy` | `ChessGames` | pieces, players, board, commands, updates, game state (plain values) |
| `free_columns.dfy` | `FreeColumns` | the `List<int>` of free columns and its `Remove` |
| `back_ranks.dfy` | `BackRanks` | one placement line of `makeBaseLine`, runs of them, and the class holding the shared list |
| `chess960_rulebook.dfy` | `Chess960Rulebook` | the rulebook exactly as written |
| `chess960_corrected.dfy` | `Chess960Corrected` | the set-up as its code evidently intends it (see Findings) |

The as-written rulebook is modelled faithfully, and what actually holds of it
is proved. With the code as written, `CreateGame` always throws a
duplicate-key error. The corrected module fixes the five defects listed under
Findings. For it, the model proves the Chess960 properties:

- every index gives a legal arrangement (bishops on opposite colours, king
  between the rooks);
- the 960 indices give 960 different back ranks, and 960 different starting
  boards;
- the game has 32 pieces with White to move.

Chess960's standard (Scharnagl) numbering maps the indices 0..959 one-to-one
onto the 960 legal arrangements. The code as written does not deliver that.
This model follows the code and records each difference under Findings.

The derivation constructor does not check its row, so a `Position` value need
not lie on the board. `Position.OnBoard()` says when it does. The validated
constructor `Position.New` returns `None` where the source throws.

The list `availableCols` is shared by the local functions of `CreateGame` and
shrunk in place. It is the field `availableCols` of the class
`BackRanks.BackRankSetup`. Each placement line is the method `Place`, which
derives a position and then removes its column if the list holds it. The
methods `MakeBaseLine` and `MakePieces` are proved equal to functions on
values (`PlaceRange`, `Pieces`). The as-written `CreateGame` is proved to
return `Failure(DuplicateKey)`. The corrected `CreateGame` is proved equal to
`StartingGame`. The lemmas are proved about those functions.

## Model

| member | source | states |
|---|---|---|
| `Positions.Position.New` | Chess.Model/Game/Position.cs:33-40 | succeeds exactly when row and column are both in 0..7, and then stores exactly the given row and column |
| `Positions.NewRoundTrip` | Chess.Model/Game/Position.cs:33-40 | validated construction gives back every on-board position and rejects every off-board one |
| `Positions.Position.Offset` | Chess.Model/Game/Position.cs:183-195 | `Some` exactly when row+dr and column+dc are both in 0..7; the result is on the board and lies exactly (dr, dc) away |
| `Positions.Position.OffsetBy` | Chess.Model/Game/Position.cs:172-175 | the direction overload succeeds exactly when the shifted coordinates are on the board, and gives exactly those coordinates |
| `Positions.OffsetByIsOffset` | Chess.Model/Game/Position.cs:172-175 | `Offset(d)` equals `Offset(d.RowDelta, d.ColumnDelta)` |
| `Positions.OffsetZero` | Chess.Model/Game/Position.cs:183-195 | `Offset(0, 0)` of an on-board position is an equal position; off the board it is `None` |
| `Positions.OffsetUndo` | Chess.Model/Game/Position.cs:183-195 | the opposite offset undoes a successful offset |
| `Positions.OffsetCompose` | Chess.Model/Game/Position.cs:183-195 | two successive offsets are one offset by the summed deltas |
| `Positions.Position.Equals` | Chess.Model/Game/Position.cs:202-207 | true exactly when both rows and both columns are equal |
| `Positions.Position.EqualsObject` | Chess.Model/Game/Position.cs:214-220 | true exactly when the object is a position with the same row and column |
| `Positions.EqualsIsEquivalence` | Chess.Model/Game/Position.cs:202-220 | `Equals` is reflexive, symmetric and transitive, and both overloads agree |
| `Positions.Position.Derive` | Chess.Model/Game/Position.cs:42-45 | the derivation constructor stores the row unchecked |
| `Positions.PieceCase.Column` | Chess.Model/Game/Position.cs:45-163 | a bishop case or an unmatched name gets its fixed column whatever the list; a case that reads the list, with a derivation value its table covers, gets one of the listed columns |
| `Positions.CaseOf` | Chess.Model/Game/Position.cs:45-163 | a name selects no case exactly when it is none of the eight names the switch matches |
| `Positions.FirstKnightIndex` | Chess.Model/Game/Position.cs:84-118 | the `knight1` table points into the first four free columns |
| `Positions.SecondKnightIndex` | Chess.Model/Game/Position.cs:119-153 | the `knight2` table points into the first four free columns |
| `Positions.DeriveBishops` | Chess.Model/Game/Position.cs:47-80 | `bishopOdd` gives 2·derVal+1 and `bishopEven` gives 2·derVal for derVal in 0..3, and column 0 otherwise |
| `Positions.BishopColumnsOppositeParity` | Chess.Model/Game/Position.cs:47-80 | odd-table columns are odd and even-table columns are even, so the two always differ |
| `Positions.BishopTablesInjective` | Chess.Model/Game/Position.cs:47-80 | each bishop table gives different columns for different values in 0..3 |
| `Positions.DeriveQueen` | Chess.Model/Game/Position.cs:81-83 | `queen` takes the free column at index derVal |
| `Positions.DeriveKnights` | Chess.Model/Game/Position.cs:84-153 | the knight names take the entries their tables point at for derVal in 0..9, and column 0 otherwise |
| `Positions.KnightTables` | Chess.Model/Game/Position.cs:84-153 | for derVal in 0..9 the `knight1` index is at most the `knight2` index, and both are at most 3 |
| `Positions.KnightPairsDistinct` | Chess.Model/Game/Position.cs:84-153 | the ten derivation values give ten different pairs of table entries |
| `Positions.RookAndKingColumns` | Chess.Model/Game/Position.cs:154-162 | `rook1` and `king` take the first free column and `rook2` the last |
| `Positions.DeriveUnmatched` | Chess.Model/Game/Position.cs:45-163 | an unmatched name, such as `knight` or `rook`, never throws and leaves column 0 |
| `Positions.DefinedMonotone` | Chess.Model/Game/Position.cs:81-162 | a longer list never makes a case throw where a shorter one did not |
| `FreeColumns.AllColumnsFull` | Chess.Model/Rule/Chess960Rulebook.cs:61 | the initial list is sorted and holds each of the eight board columns |
| `FreeColumns.AllColumnsSorted` | Chess.Model/Rule/Chess960Rulebook.cs:61 | the initial list holds exactly the columns 0..7, in increasing order |
| `FreeColumns.RemoveFirst` | Chess.Model/Rule/Chess960Rulebook.cs:65 | `Remove` takes off at most one entry, and a list that keeps its length is unchanged |
| `FreeColumns.RemoveFirstLength` | Chess.Model/Rule/Chess960Rulebook.cs:64-79 | `Remove` shortens the list by one exactly when the value is in it |
| `FreeColumns.RemoveFirstAbsent` | Chess.Model/Rule/Chess960Rulebook.cs:64-79 | removing a value the list does not hold changes nothing |
| `FreeColumns.RemoveFirstMultiset` | Chess.Model/Rule/Chess960Rulebook.cs:64-79 | `Remove` takes away one copy of the value and nothing else |
| `FreeColumns.RemoveFirstMembers` | Chess.Model/Rule/Chess960Rulebook.cs:64-79 | on a list without repeats, the removed column is absent afterwards and every other column stays |
| `FreeColumns.RemoveFirstKeepsOrder` | Chess.Model/Rule/Chess960Rulebook.cs:64-79 | removing keeps the list sorted |
| `FreeColumns.TakeEntry` | Chess.Model/Rule/Chess960Rulebook.cs:64-79 | taking the column at an index off the list leaves one column fewer |
| `FreeColumns.TakeEntrySorted` | Chess.Model/Rule/Chess960Rulebook.cs:64-79 | taking an entry off a sorted list leaves it sorted |
| `FreeColumns.RemoveFirstAt` | Chess.Model/Rule/Chess960Rulebook.cs:64-79 | on a sorted list, removing the value at an index cuts out exactly that entry |
| `FreeColumns.TakeEntryLater` | Chess.Model/Rule/Chess960Rulebook.cs:70-73 | after an entry is taken, the entries from its index on are the old ones shifted by one, all larger than the one taken |
| `BackRanks.PlaceStep` | Chess.Model/Rule/Chess960Rulebook.cs:64-79 | one placement line keeps the row; a bishop or unmatched line gets its fixed column; a line that reads the list removes one column; a list that keeps its length is unchanged |
| `BackRanks.PlaceRange` | Chess.Model/Rule/Chess960Rulebook.cs:64-79 | the lines throw nothing but an index out of range; on success they give one position per line; the list never grows and loses at most one column per line |
| `BackRanks.PlaceStepFacts` | Chess.Model/Rule/Chess960Rulebook.cs:64-79 | one placement line keeps its row and keeps the list sorted; the list loses exactly the placed column and shrinks by one only if that column was free |
| `BackRanks.PlaceRangePositions` | Chess.Model/Rule/Chess960Rulebook.cs:64-79 | a run that succeeds gives one position per line, all on the row; a bishop or unmatched line gets its fixed column |
| `BackRanks.PlaceRangeRest` | Chess.Model/Rule/Chess960Rulebook.cs:64-79 | the list left is sorted and holds only columns that were free before |
| `BackRanks.PlaceRangeSucceeds` | Chess.Model/Rule/Chess960Rulebook.cs:64-79 | a run does not throw when each line's index fits a list that lost one column per earlier line |
| `BackRanks.PlaceRangeRowFree` | Chess.Model/Rule/Chess960Rulebook.cs:64-79 | the row changes only the rows of the placed positions, not the columns or the list left |
| `BackRanks.PlaceRangeSplit` | Chess.Model/Rule/Chess960Rulebook.cs:64-79 | running the lines in two parts, on the list the first part leaves, is running them all |
| `BackRanks.PlaceRangeMultiset` | Chess.Model/Rule/Chess960Rulebook.cs:64-79 | when every line removes a column, the placed columns and the list left together make up the old list |
| `BackRanks.PlaceRangeTakesEntries` | Chess.Model/Rule/Chess960Rulebook.cs:68-79 | lines that read a list entry each remove exactly one column |
| `BackRanks.Yield` | Chess.Model/Rule/Chess960Rulebook.cs:80-87 | the yield statements pair the eight positions, in order, with two bishops, the queen, two knights, rook, king and rook of the colour |
| `BackRanks.BackRankSetup.constructor` | Chess.Model/Rule/Chess960Rulebook.cs:60-61 | the shared state starts with the derivation values and all eight columns free |
| `BackRanks.BackRankSetup.RemoveIfPresent` | Chess.Model/Rule/Chess960Rulebook.cs:65 | the conditional `Remove` takes the column off the list if it is there, keeps the list sorted and keeps every other column |
| `BackRanks.BackRankSetup.Place` | Chess.Model/Rule/Chess960Rulebook.cs:64-65 | one placement line on the shared list: it throws exactly when an index it reads is out of range, leaving the list as it was; otherwise it is one step of `PlaceRange` |
| `Chess960Rulebook.GetDerivationValues` | Chess.Model/Rule/Chess960Rulebook.cs:153-170 | for n in 0..958 the keys are exactly n, b1, b2, q and n4; b1 and b2 are in 0..3 and q in 0..5; n = b1 + 4·(b2 + 4·(n/16)); n4 is always 0 |
| `Chess960Rulebook.MakePawns` | Chess.Model/Rule/Chess960Rulebook.cs:90-93 | exactly 8 pawns of the colour on the row, one on each column 0..7 |
| `Chess960Rulebook.AddAll` | Chess.Model/Rule/Chess960Rulebook.cs:101 | the `Aggregate` of `Add` throws nothing but the duplicate-key error; on success it keeps the old keys and grows by one entry per piece |
| `Chess960Rulebook.AddAllOutcome` | Chess.Model/Rule/Chess960Rulebook.cs:95-101 | the `Aggregate` of `Add` succeeds exactly when the pieces' squares are distinct and new |
| `Chess960Rulebook.AddAllKeys` | Chess.Model/Rule/Chess960Rulebook.cs:95-101 | a successful fold adds, as keys, exactly the pieces' squares |
| `Chess960Rulebook.AddAllValues` | Chess.Model/Rule/Chess960Rulebook.cs:95-101 | a successful fold keeps the old entries and maps each piece's square to that piece |
| `Chess960Rulebook.BaseLineAsWritten` | Chess.Model/Rule/Chess960Rulebook.cs:62-79 | as written, the only error is an index out of range; both bishops follow b1, side by side for b1 in 0..3; the two knights and both rooks all get column 0 |
| `Chess960Rulebook.BaseLineSucceeds` | Chess.Model/Rule/Chess960Rulebook.cs:62-79 | from the full list, with q in 0..5, the placement lines do not throw |
| `Chess960Rulebook.EvenBishopIgnoresB2` | Chess.Model/Rule/Chess960Rulebook.cs:64-67 | with b1 = 0 and b2 = 1 the even bishop stands on column 0, not on column 2 where b2 points |
| `Chess960Rulebook.PiecesAlwaysThrow` | Chess.Model/Rule/Chess960Rulebook.cs:95-102 | as written, `makePieces` always throws; once the base line is placed, the error is a duplicate key on column 0, where a knight and a rook, two different pieces, both stand |
| `Chess960Rulebook.PlaceBishopsAndQueen` | Chess.Model/Rule/Chess960Rulebook.cs:64-69 | the first three placement lines on the shared list are the first three steps of `PlaceRange` |
| `Chess960Rulebook.PlaceKnightsRooksAndKing` | Chess.Model/Rule/Chess960Rulebook.cs:70-79 | the last five placement lines on the shared list are the remaining steps of `PlaceRange` |
| `Chess960Rulebook.MakeBaseLine` | Chess.Model/Rule/Chess960Rulebook.cs:62-88 | yields what the eight lines place, or throws what they throw, and leaves the shared list as the lines leave it |
| `Chess960Rulebook.MakePieces` | Chess.Model/Rule/Chess960Rulebook.cs:95-102 | the base line united with the pawns and folded into an empty dictionary; the shared list ends as the base line leaves it |
| `Chess960Rulebook.CreateGame` | Chess.Model/Rule/Chess960Rulebook.cs:58-111 | as written, for every index it throws the duplicate-key error while folding White's pieces |
| `Chess960Rulebook.Recorded` | Chess.Model/Rule/Chess960Rulebook.cs:137-141 | the record runs the candidate command, then ends the turn, then stores as last update the game before the move with that command and turn end |
| `Chess960Rulebook.FilterMaybes` | Chess.Model/Rule/Chess960Rulebook.cs:143 | keeps exactly the present values, never more than the input |
| `Chess960Rulebook.Where` | Chess.Model/Rule/Chess960Rulebook.cs:143-146 | keeps exactly the elements the predicate accepts, never more than the input |
| `Chess960Rulebook.PieceUpdates` | Chess.Model/Rule/Chess960Rulebook.cs:133-147 | at most one update per candidate command; each update's game is what executing its command gives, and it does not leave the mover in check |
| `Chess960Rulebook.PieceUpdatesLegal` | Chess.Model/Rule/Chess960Rulebook.cs:133-147 | a piece's updates are at most one per candidate command, and are exactly its recorded, successfully executed, not-in-check updates |
| `Chess960Rulebook.GetUpdates` | Chess.Model/Rule/Chess960Rulebook.cs:130-151 | empty when the active player has no piece on the square; otherwise exactly the piece's legal updates; no update leaves the mover in check |
| `Chess960Corrected.DerivationValues` | Chess.Model/Rule/Chess960Rulebook.cs:153-170 | for n in 0..959 the values are b1, b2 in 0..3, q in 0..5 and n4 in 0..9, and n = b1 + 4·b2 + 16·q + 96·n4 |
| `Chess960Corrected.DerivationValuesInverse` | Chess.Model/Rule/Chess960Rulebook.cs:153-170 | every choice of the four values is spelled by an index in 0..959 that gives it back |
| `Chess960Corrected.DerivationValuesInjective` | Chess.Model/Rule/Chess960Rulebook.cs:153-170 | different indices give different derivation values |
| `Chess960Corrected.GetDerivationValues` | Chess.Model/Rule/Chess960Rulebook.cs:153-170 | the step-by-step dictionary equals `DerivationValues` |
| `Chess960Corrected.NamesSelectCases` | Chess.Model/Rule/Chess960Rulebook.cs:64-79 | the corrected names select the eight cases of the derivation constructor |
| `Chess960Corrected.LinesSucceed` | Chess.Model/Rule/Chess960Rulebook.cs:64-79 | on any eight-column list the corrected lines do not throw |
| `Chess960Corrected.LinesLayout` | Chess.Model/Rule/Chess960Rulebook.cs:64-79 | from the full list the lines place eight positions on the row, use up the list, and take every column exactly once |
| `Chess960Corrected.RooksAroundKing` | Chess.Model/Rule/Chess960Rulebook.cs:74-79 | `rook1`, `king`, `rook2` take the three columns left in order, so the king is strictly between the rooks |
| `Chess960Corrected.LinesArrangement` | Chess.Model/Rule/Chess960Rulebook.cs:64-79 | the placed columns are a permutation of 0..7, the bishops are on opposite parities, and the king is between the rooks |
| `Chess960Corrected.LinesQueenAndKnights` | Chess.Model/Rule/Chess960Rulebook.cs:68-73 | the queen takes entry q of the six columns left, the first knight its table entry of the five left after that, and the second knight its entry of the four left after that |
| `Chess960Corrected.QueenAndKnightsInjective` | Chess.Model/Rule/Chess960Rulebook.cs:68-73 | different q or n4 give different queen or knight columns |
| `Chess960Corrected.LinesInjective` | Chess.Model/Rule/Chess960Rulebook.cs:64-79 | equal placed columns mean equal derivation values |
| `Chess960Corrected.BaseLineOnRow` | Chess.Model/Rule/Chess960Rulebook.cs:62-79 | on every row the back rank uses the same columns and uses up its list |
| `Chess960Corrected.BaseColumnsArrangement` | Chess.Model/Rule/Chess960Rulebook.cs:62-79 | every index gives a legal Chess960 back rank: each column once, bishops on opposite colours, king between the rooks |
| `Chess960Corrected.ArrangementDeterminesIndex` | Chess.Model/Rule/Chess960Rulebook.cs:153-170 | two indices whose placement lines put every piece on the same column are equal |
| `Chess960Corrected.KnightOrder` | Chess.Model/Rule/Chess960Rulebook.cs:70-73 | the first knight stands left of the second |
| `Chess960Corrected.ArrangementFromKinds` | Chess.Model/Rule/Chess960Rulebook.cs:64-87 | two legal arrangements that put the same kind of piece on every column are the same arrangement |
| `Chess960Corrected.StartingGameDeterminesIndex` | Chess.Model/Rule/Chess960Rulebook.cs:104-110 | two indices in 0..959 with the same starting game are equal, so the 960 indices set up 960 different boards |
| `Chess960Corrected.BaseLinePiecesPlaced` | Chess.Model/Rule/Chess960Rulebook.cs:80-87 | piece k of the base line is the k-th kind of the colour, on column k of `BaseColumns` |
| `Chess960Corrected.PlaceBishopsAndQueen` | Chess.Model/Rule/Chess960Rulebook.cs:64-69 | the first three corrected lines never throw on a full list and match `PlaceRange` |
| `Chess960Corrected.PlaceKnightsRooksAndKing` | Chess.Model/Rule/Chess960Rulebook.cs:70-79 | the last five corrected lines never throw on five free columns and match `PlaceRange` |
| `Chess960Corrected.MakeBaseLine` | Chess.Model/Rule/Chess960Rulebook.cs:62-88 | with a fresh list it never throws and yields `BaseLinePieces` |
| `Chess960Corrected.SharedListThrows` | Chess.Model/Rule/Chess960Rulebook.cs:61 | even with the corrected lines, one list shared by both colours is used up by White, and Black's queen index is then out of range |
| `Chess960Corrected.FoldTwoRows` | Chess.Model/Rule/Chess960Rulebook.cs:95-101 | a back rank on distinct columns and a pawn row on another row fold into 16 pieces on exactly those two rows |
| `Chess960Corrected.PiecesSucceed` | Chess.Model/Rule/Chess960Rulebook.cs:95-102 | the corrected `makePieces` does not throw, holds 16 pieces on its two rows, a pawn on every square of the pawn row, and the back rank as placed |
| `Chess960Corrected.AddRange` | Chess.Model/Rule/Chess960Rulebook.cs:108 | the union of two boards succeeds exactly when they share no square, and then keeps both boards' entries |
| `Chess960Corrected.UnionSize` | Chess.Model/Rule/Chess960Rulebook.cs:104-108 | White's rows 0 and 1 and Black's rows 6 and 7 share no square, giving 32 pieces |
| `Chess960Corrected.UnionContents` | Chess.Model/Rule/Chess960Rulebook.cs:104-108 | the pawns fill rows 1 and 6, and Black's back rank mirrors White's kind for kind |
| `Chess960Corrected.StartingGame` | Chess.Model/Rule/Chess960Rulebook.cs:104-110 | throws nothing but the duplicate-key error; a game it makes has White active, Black passive and no last update |
| `Chess960Corrected.StartingGameFacts` | Chess.Model/Rule/Chess960Rulebook.cs:104-110 | the corrected game never fails: White active, Black passive, 32 pieces; White's pawns on row 1 and back rank on row 0, Black's on rows 6 and 7 |
| `Chess960Corrected.MakePieces` | Chess.Model/Rule/Chess960Rulebook.cs:95-102 | the corrected `makePieces` equals `Pieces` |
| `Chess960Corrected.CreateGame` | Chess.Model/Rule/Chess960Rulebook.cs:58-111 | for every index in 0..959 the corrected `CreateGame` gives `StartingGame`, with White to move and 32 pieces |

## Left out

- The random number generator of `GetDerivationValues` (Chess960Rulebook.cs:155-157). The index n is a parameter, in 0..958 as `Next(959)` draws it.
- `Validation.InRange` and `Validation.IsInRange` are not part of this model. They are read as the range test 0..7. The exception of the validated constructor is `None`.
- `Chess960Rulebook.MakePawns` requires the row to be in 0..7, where the source's validated constructor would throw. `CreateGame` only passes rows 1 and 6.
- `Position` is a class in the source and a value here. Only its coordinates are ever compared, so reference identity plays no part.
- `GetHashCode` (Position.cs:226-232) calls a library hash builder and is not modelled.
- `Equals(object)` on an object that is not a `Position` is modelled as `EqualsObject(None)`.
- The `Chess960Rulebook` constructor (lines 42-52) only wires rule objects together. `GetStatus` (lines 118-121) is a one-line delegation to the end rule, which is not part of this model.
- `MovementRule.GetCommands`, command execution and `CheckRule.Check` are not part of this model. `GetUpdates` takes them as function parameters.
- `ImmutableSortedDictionary`, `PositionComparer`, `Board` and `Player` are not part of this model. The board is a `map<Position, Piece>`, and its `Add` fails on any key already present. .NET treats adding an equal value under an existing key as a no-op. The as-written fold still throws, because the rook on column 0 differs from the knight there.
- LINQ `Union` is modelled as concatenation. If equal placed pieces were merged, the as-written result would not change (the rook and the knight on column 0 still clash). The corrected pieces are all on different squares.
- The laziness of the `yield` iterators is not modelled. `makeBaseLine` is enumerated once, inside `makePieces`, and all eight placements run before its first `yield`. So White's placements still happen before Black's, as in the model.
- `Positions.Position.Derive`: its contract states only the unchecked row. The column of each case is stated by the `Derive…` lemmas, `RookAndKingColumns` and `DeriveUnmatched`.
- `Chess960Rulebook.CreateGame`: the construction of Black's pieces, the board and the game (lines 106-110) is never reached as written, so the method stops after White's fold.
- The view, the view-model interface and the unit tests are outside the core. The tests are cited as evidence only.

## Findings

| source | as written | input that shows it | evidently intended | confidence | as-written member | corrected member |
|---|---|---|---|---|---|---|
| Chess.Model/Rule/Chess960Rulebook.cs:70-79 | the knights and rooks are placed with the names `knight` and `rook`, which the derivation constructor does not match, so all four get column 0 and the dictionary fold throws a duplicate key (the 32-piece count of UnitTests/ChessUnitTest.cs:53-59 cannot be reached) | any index, e.g. n = 0 | `knight1`, `knight2`, `rook1`, `rook2`, giving knights on their table columns and the king between the rooks | high (not executed) | `Chess960Rulebook.PiecesAlwaysThrow` | `Chess960Corrected.RooksAroundKing` |
| Chess.Model/Rule/Chess960Rulebook.cs:66 | the even bishop reads `b1`, so `b2` is never used and the two bishops always stand side by side | n = 4 (b1 = 0, b2 = 1): even bishop on column 0 instead of 2 | the even bishop reads `b2`, so that different indices give different back ranks | high (not executed) | `Chess960Rulebook.EvenBishopIgnoresB2` | `Chess960Corrected.StartingGameDeterminesIndex` |
| Chess.Model/Rule/Chess960Rulebook.cs:167 | `n4 = (n3 % 6) / 6` is always 0, so the knights never get any other table entry | any index, e.g. n = 100 (n3 = 6, q = 0, yet n4 = 0 instead of 1) | `n4 = n3 / 6`, the remaining digit in 0..9 | high (not executed) | `Chess960Rulebook.GetDerivationValues` | `Chess960Corrected.DerivationValuesInverse` |
| Chess.Model/Rule/Chess960Rulebook.cs:61 | one list of free columns is shared by both colours; White's back rank uses it up, so Black's queen index is out of range | any index, with the names corrected | a fresh list of eight columns for each colour | high (not executed) | `Chess960Corrected.SharedListThrows` | `Chess960Corrected.MakeBaseLine` |
| Chess.Model/Rule/Chess960Rulebook.cs:157 | `Next(959)` draws from 0..958, so index 959 is never drawn | b1 = 3, b2 = 3, q = 5, n4 = 9, spelled only by n = 959 | `Next(960)`, all 960 arrangements | medium (not executed) | `Chess960Rulebook.GetDerivationValues` | `Chess960Corrected.DerivationValuesInverse` |
