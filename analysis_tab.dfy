/** The analysis tab of the review panel (src/sections/analysis/panelBody/analysisTab/index.tsx):
    the "game completed" test and which player metrics are shown. */
module AnalysisTab {
  import opened Common
  import opened BoardNavigation

  /** `isGameOver`: the board has moves and is checkmate, a draw, or at the same history
      as the game (compared joined with commas). */
  predicate IsGameOver(boardHistory: seq<string>, gameHistory: seq<string>, isCheckmate: bool, isDraw: bool) {
    |boardHistory| > 0 && (isCheckmate || isDraw || Join(boardHistory) == Join(gameHistory))
  }

  /** On SAN histories "game completed" is: the board has moves and is checkmate, a draw,
      or shows the whole game. */
  lemma IsGameOverOnSan(boardHistory: seq<string>, gameHistory: seq<string>, isCheckmate: bool, isDraw: bool)
    requires SanTokens(boardHistory) && SanTokens(gameHistory)
    ensures boardHistory == [] ==> !IsGameOver(boardHistory, gameHistory, isCheckmate, isDraw)
    ensures IsGameOver(boardHistory, gameHistory, isCheckmate, isDraw) <==>
      boardHistory != [] && (isCheckmate || isDraw || boardHistory == gameHistory)
  {
    JoinEquality(boardHistory, gameHistory);
  }

  /** For a non-empty board that follows the game and is neither checkmate nor a draw, the
      tab announces the end of the game exactly when the next-move button is disabled. */
  lemma CompletedIffNoNextMove(boardHistory: seq<string>, gameHistory: seq<string>)
    requires SanTokens(boardHistory) && SanTokens(gameHistory)
    requires IsPrefix(boardHistory, gameHistory) && boardHistory != []
    ensures IsGameOver(boardHistory, gameHistory, false, false) <==> !CanAdvance(boardHistory, gameHistory)
  {
    IsGameOverOnSan(boardHistory, gameHistory, false, false);
    CanAdvanceIffStrictPrefix(boardHistory, gameHistory);
    if |boardHistory| == |gameHistory| {
      assert gameHistory[..|boardHistory|] == gameHistory;
    }
  }

  /** Which player metrics the tab shows: accuracy whenever an evaluation exists, the game
      rating only when the evaluation also carries an estimated rating. */
  function Metrics(gameEval: Option<GameEval>): (shown: (bool, bool))
    ensures shown.0 <==> gameEval.Some?
    ensures shown.1 <==> gameEval.Some? && gameEval.value.estimatedElo.Some?
    ensures shown.1 ==> shown.0
  {
    (gameEval.Some?, gameEval.Some? && gameEval.value.estimatedElo.Some?)
  }
}
