/** The next-move button (src/sections/analysis/panelToolbar/nextMoveButton.tsx): the same
    enabling test as the navigation bar, and a move that carries the game's comment for the
    position it reaches. */
module NextMoveButton {
  import opened Common
  import opened ChessBoard
  import opened BoardNavigation

  /** `game.getComments().find(c => c.fen === fen)?.comment`: the first comment attached
      to the given position, if any. */
  function FindComment(comments: seq<Comment>, fen: string): (r: Option<string>)
    ensures r.None? <==> forall i :: 0 <= i < |comments| ==> comments[i].fen != fen
    ensures r.Some? ==>
      exists i :: 0 <= i < |comments| && comments[i].fen == fen && comments[i].comment == r.value &&
        forall j :: 0 <= j < i ==> comments[j].fen != fen
  {
    if comments == [] then None
    else if comments[0].fen == fen then Some(comments[0].comment)
    else
      assert forall i :: 1 <= i < |comments| ==> comments[i] == comments[1..][i - 1];
      FindComment(comments[1..], fen)
  }

  /** The button's `addNextGameMoveToBoard`: when enabled, plays the game move at index
      `boardHistory.length` with the comment of the position that move reaches; when
      disabled, changes nothing. */
  method AddNextGameMove(board: Board, game: Game) returns (played: bool, comment: Option<string>)
    modifies board
    ensures played == CanAdvance(old(board.history), History(game))
    ensures played ==> board.history == old(board.history) + [game.moves[|old(board.history)|].san]
    ensures played ==> comment == FindComment(game.comments, game.moves[|old(board.history)|].after)
    ensures !played ==> board.history == old(board.history) && comment.None?
  {
    played := CanAdvance(board.history, History(game));
    comment := None;
    if !played {
      return;
    }
    var nextMove := game.moves[|board.history|];
    comment := FindComment(game.comments, nextMove.after);
    board.PlayMove(nextMove.san);
  }

  /** ArrowRight does what a click on the button does; other keys do nothing. */
  method OnKeyDown(board: Board, game: Game, key: Key) returns (played: bool, comment: Option<string>)
    modifies board
    ensures key == ArrowRight ==> played == CanAdvance(old(board.history), History(game))
    ensures key == ArrowRight && played ==>
      board.history == old(board.history) + [game.moves[|old(board.history)|].san] &&
      comment == FindComment(game.comments, game.moves[|old(board.history)|].after)
    ensures !played ==> board.history == old(board.history)
    ensures key != ArrowRight ==> !played
  {
    played, comment := false, None;
    if key == ArrowRight {
      played, comment := AddNextGameMove(board, game);
    }
  }
}
