/** The end-of-game summary on the play page (src/sections/play/gameRecap.tsx): when it is
    shown, which result it announces, and the resignation header it records when the game
    is handed over to analysis. */
module GameRecap {
  import opened Common
  import GameInProgress

  /** The chess.js answers the recap reads from the finished game. */
  datatype GameStatus = GameStatus(
    isCheckmate: bool,
    isInsufficientMaterial: bool,
    isStalemate: bool,
    isThreefoldRepetition: bool,
    isDraw: bool,
    isGameOver: bool,
    turn: Color,
    historyLength: nat)

  /** How chess.js relates its answers: the three named draws are draws, and the game is
      over exactly on checkmate or a draw. */
  predicate ChessJsConsistent(s: GameStatus) {
    ((s.isInsufficientMaterial || s.isStalemate || s.isThreefoldRepetition) ==> s.isDraw) &&
    (s.isGameOver <==> s.isCheckmate || s.isDraw)
  }

  /** The recap renders nothing while a game is in progress or before any move. */
  predicate Renders(isGameInProgress: bool, s: GameStatus) {
    !isGameInProgress && s.historyLength > 0
  }

  datatype ResultIcon = Party | Sad | Handshake | WhiteFlag

  datatype ResultData = ResultData(icon: ResultIcon, title: string, message: string, color: string)

  /** `getResultData`: checkmate first (won by the side not to move), then insufficient
      material, stalemate, threefold repetition, any other draw (announced as the
      fifty-move rule), and otherwise a resignation. */
  function ResultFor(s: GameStatus, playerColor: Color): (r: ResultData)
    ensures s.isCheckmate ==>
      (r.title == "Victory!" <==> Opponent(s.turn) == playerColor) &&
      (r.title == "Defeat" <==> Opponent(s.turn) != playerColor)
    ensures !s.isCheckmate ==>
      (r.title == "Draw" <==>
         s.isInsufficientMaterial || s.isStalemate || s.isThreefoldRepetition || s.isDraw)
    ensures r.title == "Resigned" <==>
      !(s.isCheckmate || s.isInsufficientMaterial || s.isStalemate || s.isThreefoldRepetition || s.isDraw)
    ensures r.title == "Draw" ==> r.icon == Handshake && r.color == "#45b7d1"
    ensures !s.isCheckmate && s.isInsufficientMaterial ==> r.message == "Insufficient material"
    ensures !s.isCheckmate && !s.isInsufficientMaterial && s.isStalemate ==> r.message == "Stalemate"
    ensures !s.isCheckmate && !s.isInsufficientMaterial && !s.isStalemate && s.isThreefoldRepetition ==>
      r.message == "Threefold repetition"
    ensures (!s.isCheckmate && !s.isInsufficientMaterial && !s.isStalemate && !s.isThreefoldRepetition
             && s.isDraw) ==> r.message == "Fifty-move rule"
  {
    if s.isCheckmate then
      var winnerColor := if s.turn == White then Black else White;
      var isPlayerWinner := winnerColor == playerColor;
      ResultData(
        if isPlayerWinner then Party else Sad,
        if isPlayerWinner then "Victory!" else "Defeat",
        (if isPlayerWinner then "You" else "Stockfish") + " won by checkmate",
        if isPlayerWinner then "#4CAF50" else "#ff6b6b")
    else if s.isInsufficientMaterial then ResultData(Handshake, "Draw", "Insufficient material", "#45b7d1")
    else if s.isStalemate then ResultData(Handshake, "Draw", "Stalemate", "#45b7d1")
    else if s.isThreefoldRepetition then ResultData(Handshake, "Draw", "Threefold repetition", "#45b7d1")
    else if s.isDraw then ResultData(Handshake, "Draw", "Fifty-move rule", "#45b7d1")
    else ResultData(WhiteFlag, "Resigned", "You resigned the game", "#ff6b6b")
  }

  /** The `resigned` header written when the game goes to analysis: the player's colour
      while the game is not over, nothing otherwise. */
  function ResignedHeader(isGameOver: bool, playerColor: Color): (h: Option<Color>)
    ensures h.Some? <==> !isGameOver
    ensures h.Some? ==> h.value == playerColor
  {
    if !isGameOver then Some(playerColor) else None
  }

  /** What the recap shows: nothing while a game is in progress or before any move,
      otherwise the result of the finished game for the player. */
  function Recap(isGameInProgress: bool, s: GameStatus, playerColor: Color): (r: Option<ResultData>)
    ensures r.None? <==> isGameInProgress || s.historyLength == 0
    ensures r.Some? ==> r.value == ResultFor(s, playerColor)
  {
    if Renders(isGameInProgress, s) then Some(ResultFor(s, playerColor)) else None
  }

  /** On the play page, once a move has been made exactly one of the in-progress panel
      and the recap is shown; before any move the recap never is. */
  lemma RecapOrPanel(isGameInProgress: bool, s: GameStatus, playerColor: Color)
    ensures s.historyLength > 0 ==>
      (GameInProgress.Panel(isGameInProgress, s.historyLength, s.turn).Some? <==>
       Recap(isGameInProgress, s, playerColor).None?)
    ensures s.historyLength == 0 ==> Recap(isGameInProgress, s, playerColor).None?
  {
  }

  /** With chess.js's answers consistent, the recap announces a resignation exactly when
      the game is not over, which is exactly when the player's colour is recorded as the
      resigning side. */
  lemma ResignedTitleMatchesHeader(s: GameStatus, playerColor: Color)
    requires ChessJsConsistent(s)
    ensures ResultFor(s, playerColor).title == "Resigned" <==> !s.isGameOver
    ensures ResultFor(s, playerColor).title == "Resigned" <==> ResignedHeader(s.isGameOver, playerColor) == Some(playerColor)
  {
  }
}
