/** The state the play page shares between its components (the atoms of
    src/sections/play/states.ts, which is not part of this model): whether a game is in
    progress, the player's colour, the engine and its strength, and the arguments the
    last new game was set up with. */
module PlayState {
  import opened Common

  /** `EngineName`: the two engines the fallback can choose, and any other engine. */
  datatype EngineName = Stockfish16_1Lite | Stockfish11 | OtherEngine(id: string)

  /** A player of a new game as the header records it: a name and an optional rating. */
  datatype PlayerInfo = PlayerInfo(name: string, rating: Option<int>)

  /** The argument of the game reset: both players and the starting FEN (`undefined` for
      the standard starting position). */
  datatype GameSetup = GameSetup(white: PlayerInfo, black: PlayerInfo, fen: Option<string>)

  class PlaySession {
    var isGameInProgress: bool
    var playerColor: Color
    var engineName: EngineName
    var engineElo: int
    /** The setup of the game the play board was last reset to, if any. */
    var setup: Option<GameSetup>

    constructor (playerColor: Color, engineName: EngineName, engineElo: int)
      ensures !isGameInProgress && setup.None?
      ensures this.playerColor == playerColor && this.engineName == engineName && this.engineElo == engineElo
    {
      isGameInProgress := false;
      this.playerColor := playerColor;
      this.engineName := engineName;
      this.engineElo := engineElo;
      setup := None;
    }
  }
}
