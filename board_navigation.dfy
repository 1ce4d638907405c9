/** The navigation bar under the review board (src/sections/analysis/boardNavigation/index.tsx):
    the list of important classified moves, the next-move button and its enabling test,
    the jump to the next classified move, the keyboard shortcuts, the save button's
    enabling test and the progress bar. */
module BoardNavigation {
  import opened Common
  import opened ChessBoard

  // ---- Classified moves --------------------------------------------------------------

  /** A position of the evaluation tagged with its index in the game. */
  datatype ClassifiedMove = ClassifiedMove(position: PositionEval, moveIndex: nat)

  /** The position at index `i` carries one of the six important classifications. */
  predicate ImportantAt(ps: seq<PositionEval>, i: nat)
    requires i < |ps|
  {
    ps[i].moveClassification.Some? && IsImportant(ps[i].moveClassification.value)
  }

  /** The important positions among the first `n`, tagged with their index. */
  function TaggedUpTo(ps: seq<PositionEval>, n: nat): seq<ClassifiedMove>
    requires n <= |ps|
  {
    if n == 0 then []
    else TaggedUpTo(ps, n - 1) + (if ImportantAt(ps, n - 1) then [ClassifiedMove(ps[n - 1], n - 1)] else [])
  }

  /** `r` lists exactly the important positions among the first `n`, each with its own
      index, in strictly increasing index order. */
  predicate TaggedExactly(ps: seq<PositionEval>, n: nat, r: seq<ClassifiedMove>)
    requires n <= |ps|
  {
    (forall k :: 0 <= k < |r| ==>
       r[k].moveIndex < n && r[k].position == ps[r[k].moveIndex] && ImportantAt(ps, r[k].moveIndex)) &&
    (forall k, l :: 0 <= k < l < |r| ==> r[k].moveIndex < r[l].moveIndex) &&
    (forall i :: 0 <= i < n && ImportantAt(ps, i) ==> exists k :: 0 <= k < |r| && r[k].moveIndex == i)
  }

  /** Appending the next position, when it is important, keeps the list exact. */
  lemma ExtendTagged(ps: seq<PositionEval>, m: nat, r0: seq<ClassifiedMove>)
    requires m < |ps| && ImportantAt(ps, m) && TaggedExactly(ps, m, r0)
    ensures TaggedExactly(ps, m + 1, r0 + [ClassifiedMove(ps[m], m)])
  {
    var r := r0 + [ClassifiedMove(ps[m], m)];
    assert forall k :: 0 <= k < |r0| ==> r[k] == r0[k];
    forall i | 0 <= i < m + 1 && ImportantAt(ps, i)
      ensures exists k :: 0 <= k < |r| && r[k].moveIndex == i
    {
      if i < m {
        var k :| 0 <= k < |r0| && r0[k].moveIndex == i;
        assert r[k] == r0[k];
      } else {
        assert r[|r0|].moveIndex == i;
      }
    }
  }

  /** A next position that is not important leaves an exact list exact. */
  lemma SkipTagged(ps: seq<PositionEval>, m: nat, r0: seq<ClassifiedMove>)
    requires m < |ps| && !ImportantAt(ps, m) && TaggedExactly(ps, m, r0)
    ensures TaggedExactly(ps, m + 1, r0)
  {
  }

  /** One more position keeps the list of the important ones exact. */
  lemma StepTagged(ps: seq<PositionEval>, m: nat)
    requires m < |ps| && TaggedExactly(ps, m, TaggedUpTo(ps, m))
    ensures TaggedExactly(ps, m + 1, TaggedUpTo(ps, m + 1))
  {
    var r0 := TaggedUpTo(ps, m);
    if ImportantAt(ps, m) {
      assert TaggedUpTo(ps, m + 1) == r0 + [ClassifiedMove(ps[m], m)];
      ExtendTagged(ps, m, r0);
    } else {
      assert TaggedUpTo(ps, m + 1) == r0 + [] == r0;
      SkipTagged(ps, m, r0);
    }
  }

  lemma {:induction false} TaggedUpToShape(ps: seq<PositionEval>, n: nat)
    requires n <= |ps|
    ensures TaggedExactly(ps, n, TaggedUpTo(ps, n))
  {
    if n > 0 {
      TaggedUpToShape(ps, n - 1);
      StepTagged(ps, n - 1);
    }
  }

  /** `classifiedMoves`: the positions labelled Splendid, Perfect, Best, Mistake,
      Inaccuracy or Blunder, each tagged with its index, in game order; none without an
      evaluation. */
  function ClassifiedMoves(gameEval: Option<GameEval>): (r: seq<ClassifiedMove>)
    ensures gameEval.None? ==> r == []
    ensures gameEval.Some? ==> TaggedExactly(gameEval.value.positions, |gameEval.value.positions|, r)
  {
    if gameEval.None? then []
    else
      var ps := gameEval.value.positions;
      TaggedUpToShape(ps, |ps|);
      TaggedUpTo(ps, |ps|)
  }

  /** `classifiedMoves.find(move => move.moveIndex > current)?.moveIndex`. */
  function FirstAfter(cms: seq<ClassifiedMove>, current: nat): (r: Option<nat>)
    ensures r.Some? ==>
      (r.value > current &&
       exists k :: 0 <= k < |cms| && cms[k].moveIndex == r.value &&
         forall j :: 0 <= j < k ==> cms[j].moveIndex <= current)
    ensures r.None? <==> forall k :: 0 <= k < |cms| ==> cms[k].moveIndex <= current
  {
    if cms == [] then None
    else if cms[0].moveIndex > current then Some(cms[0].moveIndex)
    else
      var r := FirstAfter(cms[1..], current);
      assert forall k :: 1 <= k < |cms| ==> cms[k] == cms[1..][k - 1];
      r
  }

  /** The target of the jump: the first classified move after the current one. */
  function JumpTarget(gameEval: Option<GameEval>, current: nat): Option<nat> {
    FirstAfter(ClassifiedMoves(gameEval), current)
  }

  /** On an exact list of the important positions, the first entry after `current` is
      the smallest important index above `current`. */
  lemma FirstAfterIsNextImportant(ps: seq<PositionEval>, cms: seq<ClassifiedMove>, current: nat)
    requires TaggedExactly(ps, |ps|, cms)
    ensures var t := FirstAfter(cms, current);
      t.Some? ==>
        (current < t.value < |ps| && ImportantAt(ps, t.value) &&
         forall i :: current < i < t.value ==> !ImportantAt(ps, i))
    ensures FirstAfter(cms, current).None? <==> forall i :: current < i < |ps| ==> !ImportantAt(ps, i)
  {
    var t := FirstAfter(cms, current);
    if t.Some? {
      var k :| 0 <= k < |cms| && cms[k].moveIndex == t.value &&
        forall j :: 0 <= j < k ==> cms[j].moveIndex <= current;
      assert ImportantAt(ps, cms[k].moveIndex);
      forall l | 0 <= l < |cms|
        ensures cms[l].moveIndex <= current || cms[l].moveIndex >= t.value
      {
        if k < l {
          assert cms[k].moveIndex < cms[l].moveIndex;
        }
      }
    } else {
      forall i | current < i < |ps| && ImportantAt(ps, i)
        ensures exists l :: 0 <= l < |cms| && cms[l].moveIndex == i
      {
      }
    }
  }

  /** The jump goes to the smallest index above the current move that carries an
      important classification, and has no target exactly when there is no such index. */
  lemma JumpTargetIsNextImportant(gameEval: Option<GameEval>, current: nat)
    ensures var t := JumpTarget(gameEval, current);
      t.Some? ==>
        (gameEval.Some? && current < t.value < |gameEval.value.positions| &&
         ImportantAt(gameEval.value.positions, t.value) &&
         forall i :: current < i < t.value ==> !ImportantAt(gameEval.value.positions, i))
    ensures JumpTarget(gameEval, current).None? <==>
      (gameEval.None? ||
       forall i :: current < i < |gameEval.value.positions| ==> !ImportantAt(gameEval.value.positions, i))
  {
    if gameEval.Some? {
      FirstAfterIsNextImportant(gameEval.value.positions, ClassifiedMoves(gameEval), current);
    }
  }

  /** `hasNextClassifiedMove`: some classified move lies after the current one; the jump
      button is enabled exactly when the jump has a target. */
  function HasNextClassifiedMove(gameEval: Option<GameEval>, current: nat): (b: bool)
    ensures b <==> JumpTarget(gameEval, current).Some?
  {
    exists k :: 0 <= k < |ClassifiedMoves(gameEval)| && ClassifiedMoves(gameEval)[k].moveIndex > current
  }

  // ---- Next move -----------------------------------------------------------------------

  /** `isButtonEnabled` / `hasNextMove`: the board is behind the game and its history, joined
      with commas, equals the game's history up to the same length, joined likewise. */
  predicate CanAdvance(boardHistory: seq<string>, gameHistory: seq<string>) {
    |boardHistory| < |gameHistory| && Join(gameHistory[..|boardHistory|]) == Join(boardHistory)
  }

  predicate IsPrefix(xs: seq<string>, ys: seq<string>) {
    |xs| <= |ys| && ys[..|xs|] == xs
  }

  /** On SAN histories the joined comparison is a prefix test: next-move is enabled
      exactly when the board's moves are a strict prefix of the game's. */
  lemma CanAdvanceIffStrictPrefix(boardHistory: seq<string>, gameHistory: seq<string>)
    requires SanTokens(boardHistory) && SanTokens(gameHistory)
    ensures CanAdvance(boardHistory, gameHistory) <==>
      IsPrefix(boardHistory, gameHistory) && |boardHistory| < |gameHistory|
  {
    if |boardHistory| < |gameHistory| {
      var p := gameHistory[..|boardHistory|];
      assert SanTokens(p) by {
        forall i | 0 <= i < |p| ensures SanToken(p[i]) { assert p[i] == gameHistory[i]; }
      }
      JoinEquality(p, boardHistory);
    }
  }

  /** `addNextGameMoveToBoard`: when enabled, plays the game move at index
      `boardHistory.length`; otherwise does nothing. */
  method AddNextGameMove(board: Board, game: Game) returns (played: bool)
    modifies board
    ensures played == CanAdvance(old(board.history), History(game))
    ensures played ==> board.history == old(board.history) + [game.moves[|old(board.history)|].san]
    ensures !played ==> board.history == old(board.history)
  {
    var gameHistory := History(game);
    played := CanAdvance(board.history, gameHistory);
    if !played {
      return;
    }
    var nextMove := game.moves[|board.history|];
    board.PlayMove(nextMove.san);
  }

  /** Advancing from a board that follows the game keeps it following the game, one move
      further: the board then shows exactly the game's first `n + 1` moves. */
  lemma AdvanceKeepsPrefix(boardHistory: seq<string>, game: Game)
    requires SanTokens(boardHistory) && SanTokens(History(game))
    requires CanAdvance(boardHistory, History(game))
    ensures var next := boardHistory + [game.moves[|boardHistory|].san];
      next == History(game)[..|boardHistory| + 1] && IsPrefix(next, History(game))
  {
    CanAdvanceIffStrictPrefix(boardHistory, History(game));
    var h := History(game);
    assert h[..|boardHistory| + 1] == h[..|boardHistory|] + [h[|boardHistory|]];
  }

  /** `jumpToNextClassifiedMove`: goes to the first classified move after the current one,
      if there is one. */
  method JumpToNextClassifiedMove(board: Board, game: Game, gameEval: Option<GameEval>)
    modifies board
    ensures var t := JumpTarget(gameEval, |old(board.history)|);
      if t.Some? && t.value <= |game.moves| then board.history == History(game)[..t.value]
      else board.history == old(board.history)
  {
    var currentMoveIndex := |board.history|;
    var next := FirstAfter(ClassifiedMoves(gameEval), currentMoveIndex);
    if next.Some? {
      board.GoToMove(next.value, History(game));
    }
  }

  // ---- Keyboard, save and progress --------------------------------------------------------

  datatype Key = ArrowLeft | ArrowRight | ArrowDown | OtherKey

  /** The key handler: ArrowLeft undoes a move when the board has one, ArrowRight acts as
      the next-move button, any other key does nothing. */
  method OnKeyDown(board: Board, game: Game, key: Key)
    modifies board
    ensures key == ArrowLeft && old(board.history) != [] ==>
      board.history == old(board.history)[..|old(board.history)| - 1]
    ensures key == ArrowRight ==>
      if CanAdvance(old(board.history), History(game))
      then board.history == old(board.history) + [game.moves[|old(board.history)|].san]
      else board.history == old(board.history)
    ensures (key == ArrowLeft && old(board.history) == []) || key == ArrowDown || key == OtherKey ==>
      board.history == old(board.history)
  {
    if key == ArrowLeft && |board.history| > 0 {
      board.UndoMove();
    } else if key == ArrowRight {
      var _ := AddNextGameMove(board, game);
    }
  }

  /** `enableSave`: the game was not opened from a link and the board or the game has
      moves. */
  predicate SaveEnabled(gameFromUrl: bool, boardHistory: seq<string>, gameHistory: seq<string>) {
    !gameFromUrl && (|boardHistory| > 0 || |gameHistory| > 0)
  }

  /** What one call of `handleSave` does: nothing, or store the game (together with its
      evaluation when there is one) and put the new game's id into the page's query. */
  datatype SaveEffect = NoSave | Store(withEval: bool)

  function HandleSave(gameFromUrl: bool, boardHistory: seq<string>, gameHistory: seq<string>,
                      gameEval: Option<GameEval>): (e: SaveEffect)
    ensures e.Store? <==> SaveEnabled(gameFromUrl, boardHistory, gameHistory)
    ensures e.Store? ==> (e.withEval <==> gameEval.Some?)
    ensures gameFromUrl ==> e == NoSave
  {
    if !SaveEnabled(gameFromUrl, boardHistory, gameHistory) then NoSave
    else Store(gameEval.Some?)
  }

  /** The width of the progress bar, in percent of the full bar (computed exactly). */
  function ProgressWidth(current: nat, total: nat): (w: real)
    ensures total == 0 ==> w == 0.0
    ensures current <= total ==> 0.0 <= w <= 100.0
    ensures 0 < total && current == total ==> w == 100.0
  {
    if total > 0 then (current as real / total as real) * 100.0 else 0.0
  }
}
