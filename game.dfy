/**
 * The values the rulebook builds and inspects: pieces, players, boards,
 * commands, updates and game states. Their classes belong to the chess model
 * but are not modelled beyond what the rulebook needs of them.
 */
module ChessGames {
  import opened Wrappers
  import opened Positions

  datatype Color = White | Black

  datatype PieceKind = Pawn | Knight | Bishop | Rook | Queen | King

  /** A chess piece of some colour. */
  datatype Piece = Piece(kind: PieceKind, color: Color)

  /** A piece together with the square it stands on. */
  datatype PlacedPiece = PlacedPiece(position: Position, piece: Piece)

  datatype Player = Player(color: Color)

  /** The board: which piece stands on which position. */
  type Board = map<Position, Piece>

  /** The commands a game state is changed by; the movement rule produces the first three. */
  datatype Command =
    | Move(source: Position, target: Position)
    | Remove(at: Position)
    | Spawn(at: Position, piece: Piece)
    | Sequence(first: Command, second: Command)
    | EndTurn
    | SetLastUpdate(update: Update)

  /** A game state together with the command that produced it. */
  datatype Update = Update(game: ChessGame, command: Command)

  datatype ChessGame = ChessGame(board: Board, activePlayer: Player, passivePlayer: Player, lastUpdate: Option<Update>)

  /** Board.GetPiece(position, color): the piece on position, if there is one of that colour. */
  function GetPiece(board: Board, position: Position, color: Color): Option<PlacedPiece> {
    if position in board && board[position].color == color then Some(PlacedPiece(position, board[position]))
    else None
  }
}
