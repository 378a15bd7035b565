/**
  The rules engine (chess.js) seen from the interpreter. Every game starts from
  the initial position and changes only by the moves in its SAN history, so each
  query of the engine is a function of that history.
 */
module Chess {
  import opened Wrappers
  import opened Classifier

  datatype Color = White | Black

  function Opponent(c: Color): Color {
    match c
    case White => Black
    case Black => White
  }

  /** The side to move: White after an even number of moves, Black after an odd one. */
  function Turn(history: seq<string>): Color {
    if |history| % 2 == 0 then White else Black
  }

  /** One entry of `game.moves({ verbose: true })`. */
  datatype Candidate = Candidate(color: Color, piece: string, from: string, to: string, san: string)

  /**
    The engine's answers for a position given by its history:
    - `legal`: the legal moves, in the engine's enumeration order;
    - `play`: `game.move({ from, to, promotion: "q" })`, the SAN of the move made or None when refused;
    - `castle`: `game.move("O-O")` or `game.move("O-O-O")`, likewise;
    - `board`: `game.board()`, eight rows from rank 8 down, each eight squares from file a,
      holding the colour of the piece on the square, if any;
    - `inCheck`, `inCheckmate`, `isDraw`: `game.isCheck()`, `game.isCheckmate()`, `game.isDraw()`.
   */
  datatype Engine = Engine(
    legal: seq<string> -> seq<Candidate>,
    play: (seq<string>, string, string) -> Option<string>,
    castle: (seq<string>, Side) -> Option<string>,
    board: seq<string> -> seq<seq<Option<Color>>>,
    inCheck: seq<string> -> bool,
    inCheckmate: seq<string> -> bool,
    isDraw: seq<string> -> bool
  )
}
