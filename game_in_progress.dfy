/** The panel shown on the play page while a game is on
    (src/sections/play/gameInProgress.tsx): it ends the game-in-progress flag when the game
    is over or the player resigns, and shows the move number and the side to move. */
module GameInProgress {
  import opened Common
  import opened PlayState

  /** The game-over effect: once chess.js reports the game over, no game is in progress. */
  method OnGameChange(play: PlaySession, isGameOver: bool)
    modifies play
    ensures isGameOver ==> !play.isGameInProgress
    ensures !isGameOver ==> play.isGameInProgress == old(play.isGameInProgress)
    ensures play.playerColor == old(play.playerColor) && play.engineName == old(play.engineName) &&
      play.engineElo == old(play.engineElo) && play.setup == old(play.setup)
  {
    if isGameOver {
      play.isGameInProgress := false;
    }
  }

  /** `handleResign`: ends the game in progress and changes nothing else. */
  method Resign(play: PlaySession)
    modifies play
    ensures !play.isGameInProgress
    ensures play.playerColor == old(play.playerColor) && play.engineName == old(play.engineName) &&
      play.engineElo == old(play.engineElo) && play.setup == old(play.setup)
  {
    play.isGameInProgress := false;
  }

  /** `Math.ceil(moveCount / 2)`: the smallest number whose double is at least the number
      of half-moves played. */
  function MoveNumber(moveCount: nat): (n: nat)
    ensures 2 * n >= moveCount && 2 * n < moveCount + 2
  {
    (moveCount + 1) / 2
  }

  /** The number of White's half-moves among the first `m` of a game White starts. */
  function WhiteMoves(m: nat): nat {
    if m == 0 then 0 else WhiteMoves(m - 1) + (if (m - 1) % 2 == 0 then 1 else 0)
  }

  /** In a game White starts, the move number shown is the number of moves White has made. */
  lemma {:induction false} MoveNumberCountsWhiteMoves(m: nat)
    ensures MoveNumber(m) == WhiteMoves(m)
  {
    if m > 0 {
      MoveNumberCountsWhiteMoves(m - 1);
    }
  }

  /** The name of the side to move, from chess.js's `turn()`. */
  function CurrentPlayer(turn: Color): (name: string)
    ensures name == "White" <==> turn == White
    ensures name == "Black" <==> turn == Black
  {
    match turn
    case White => "White"
    case Black => "Black"
  }

  /** The status line of the panel: the move number and the side to move. */
  datatype StatusLine = StatusLine(moveNumber: nat, currentPlayer: string)

  /** What the panel shows: nothing when no game is in progress, otherwise the status line
      for the game's half-move count and side to move. */
  function Panel(isGameInProgress: bool, moveCount: nat, turn: Color): (r: Option<StatusLine>)
    ensures r.None? <==> !isGameInProgress
    ensures r.Some? ==> 2 * r.value.moveNumber >= moveCount && 2 * r.value.moveNumber < moveCount + 2
    ensures r.Some? ==> (r.value.currentPlayer == "White" <==> turn == White)
  {
    if !isGameInProgress then None
    else Some(StatusLine(MoveNumber(moveCount), CurrentPlayer(turn)))
  }
}
