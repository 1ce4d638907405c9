/** The toolbar of the analysis panel (src/sections/analysis/panelToolbar/index.tsx): the
    same classified-move list and next-move test as the navigation bar, a jump that resets
    the board and replays the game up to the target, its keyboard shortcuts and the retry
    button. */
module PanelToolbar {
  import opened Common
  import opened ChessBoard
  import opened BoardNavigation

  function Min(a: nat, b: nat): nat {
    if a <= b then a else b
  }

  /** The toolbar's `jumpToNextClassifiedMove`: with a target `k`, reset the board and
      replay the game's first `k` moves in order (all of them when the game is shorter);
      without a target, do nothing. */
  method JumpByReplay(board: Board, game: Game, gameEval: Option<GameEval>)
    modifies board
    ensures var t := JumpTarget(gameEval, |old(board.history)|);
      if t.Some? then board.history == History(game)[..Min(t.value, |game.moves|)]
      else board.history == old(board.history)
  {
    var currentMoveIndex := |board.history|;
    var next := FirstAfter(ClassifiedMoves(gameEval), currentMoveIndex);
    if next.Some? {
      board.Reset();
      var movesToPlay := game.moves[..Min(next.value, |game.moves|)];
      for i := 0 to |movesToPlay|
        invariant board.history == History(game)[..i]
      {
        board.PlayMove(movesToPlay[i].san);
        assert History(game)[..i + 1] == History(game)[..i] + [History(game)[i]];
      }
    }
  }

  /** When the evaluation covers exactly the game's positions (one more than its moves),
      the toolbar's replaying jump and the navigation bar's `goToMove` jump end on the same
      board: the game's first `k` moves for the next classified index `k`. */
  lemma JumpsAgree(gameEval: Option<GameEval>, game: Game, current: nat)
    requires gameEval.Some? ==> |gameEval.value.positions| == |game.moves| + 1
    ensures var t := JumpTarget(gameEval, current);
      t.Some? ==> t.value <= |game.moves| && Min(t.value, |game.moves|) == t.value
  {
    JumpTargetIsNextImportant(gameEval, current);
  }

  /** The toolbar's key handler: ArrowLeft undoes a move when the board has one,
      ArrowRight plays the next game move, ArrowDown resets the board. */
  method OnKeyDown(board: Board, game: Game, key: Key)
    modifies board
    ensures key == ArrowLeft ==>
      if old(board.history) != [] then board.history == old(board.history)[..|old(board.history)| - 1]
      else board.history == old(board.history)
    ensures key == ArrowRight ==>
      if CanAdvance(old(board.history), History(game))
      then board.history == old(board.history) + [game.moves[|old(board.history)|].san]
      else board.history == old(board.history)
    ensures key == ArrowDown ==> board.history == []
    ensures key == OtherKey ==> board.history == old(board.history)
  {
    if key == ArrowLeft && |board.history| > 0 {
      board.UndoMove();
    } else if key == ArrowRight {
      var _ := AddNextGameMove(board, game);
    } else if key == ArrowDown {
      board.Reset();
    }
  }

  /** The retry button is disabled exactly when the board has no moves. */
  predicate RetryDisabled(boardHistory: seq<string>) {
    |boardHistory| == 0
  }

  /** Clicking retry (possible only while it is enabled) resets the board; either way the
      board ends at the starting position, so the button is disabled exactly when a click
      would change nothing. */
  method ClickRetry(board: Board)
    modifies board
    ensures board.history == []
    ensures RetryDisabled(old(board.history)) ==> board.history == old(board.history)
  {
    if !RetryDisabled(board.history) {
      board.Reset();
    }
  }
}
