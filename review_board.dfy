/** The review board (`boardAtom`) as the navigation components drive it through their
    board actions: play a move, undo the last move, reset to the starting position, and go
    to a given move of the game. Only the board's move list (its SAN history) is kept. */
module ChessBoard {

  class Board {
    var history: seq<string>

    constructor (initial: seq<string>)
      ensures history == initial
    {
      history := initial;
    }

    /** `playMove` with a move of the game played from the position it was played in:
        the board records that move's SAN. */
    method PlayMove(san: string)
      modifies this
      ensures history == old(history) + [san]
    {
      history := history + [san];
    }

    /** `undoMove`: drops the last move; on an empty board nothing changes. */
    method UndoMove()
      modifies this
      ensures old(history) == [] ==> history == []
      ensures old(history) != [] ==> history == old(history)[..|old(history)| - 1]
    {
      if history != [] {
        history := history[..|history| - 1];
      }
    }

    /** `resetToStartingPosition`: the board goes back to the game's starting position. */
    method Reset()
      modifies this
      ensures history == []
    {
      history := [];
    }

    /** `goToMove(k, game)`: the board shows the game after its first `k` moves; an index
        beyond the game's end leaves the board unchanged. */
    method GoToMove(k: nat, gameHistory: seq<string>)
      modifies this
      ensures k <= |gameHistory| ==> history == gameHistory[..k]
      ensures k > |gameHistory| ==> history == old(history)
    {
      if k <= |gameHistory| {
        history := gameHistory[..k];
      }
    }
  }
}
