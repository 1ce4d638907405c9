/** The load-game dialog (src/sections/loadGame/loadGameDialog.tsx): the game origin and
    the preferred origin kept in storage, the add-game handler with its guard and its
    error text, and the resets done by closing and by changing the origin. */
module LoadGameDialog {
  import opened Common

  /** `GameOrigin`, with the string each member stands for. */
  datatype GameOrigin = Pgn | ChessCom | Lichess

  function OriginValue(o: GameOrigin): string {
    match o
    case Pgn => "pgn"
    case ChessCom => "chesscom"
    case Lichess => "lichess"
  }

  /** `Object.values(GameOrigin).includes(s)`, answering the member itself. */
  function ParseOrigin(s: string): (r: Option<GameOrigin>)
    ensures r.Some? ==> OriginValue(r.value) == s
    ensures r.None? <==> forall o: GameOrigin :: OriginValue(o) != s
  {
    if s == "pgn" then Some(Pgn)
    else if s == "chesscom" then Some(ChessCom)
    else if s == "lichess" then Some(Lichess)
    else None
  }

  /** Every origin written as its string reads back as itself. */
  lemma OriginRoundTrip(o: GameOrigin)
    ensures ParseOrigin(OriginValue(o)) == Some(o)
  {
    match o
    case Pgn =>
    case ChessCom =>
      assert "chesscom" != "pgn" by { assert "chesscom"[0] != "pgn"[0]; }
    case Lichess =>
      assert "lichess" != "pgn" by { assert "lichess"[0] != "pgn"[0]; }
      assert "lichess" != "chesscom" by { assert "lichess"[0] != "chesscom"[0]; }
  }

  const UnknownPgnError := "Invalid PGN: unknown error !"

  /** What one call of `handleAddGame` comes to. */
  datatype AddResult = Ignored | Added(boardOrientation: bool) | Failed(error: string)

  /** `handleAddGame` with the outcome of reading the PGN and handing the game over
      (`None` when neither threw): an empty PGN is ignored; success sets the board
      orientation to the one given, White at the bottom by default; a throw gives the
      error text for the thrown value. */
  function AddGameResult(pgnText: string, orientation: Option<bool>, outcome: Option<Thrown>): (r: AddResult)
    ensures r.Ignored? <==> pgnText == []
    ensures r.Added? <==> pgnText != [] && outcome.None?
    ensures r.Added? ==> r.boardOrientation == (orientation != Some(false))
    ensures r.Failed? ==> r.error == ErrorText(outcome.value, UnknownPgnError) && r.error != []
  {
    if pgnText == [] then Ignored
    else match outcome
      case None => Added(match orientation case Some(b) => b case None => true)
      case Some(t) => Failed(ErrorText(t, UnknownPgnError))
  }

  class LoadDialog {
    /** The parent's `open` flag, which `onClose` clears. */
    var open: bool
    var pgn: string
    var gameOrigin: GameOrigin
    var parsingError: string
    /** Whether the timer that clears the error after three seconds is pending. */
    var errorTimerPending: bool
    /** The preferred-origin entry of the browser storage. */
    var storedOrigin: Option<string>
    /** `boardOrientationAtom`: true for White at the bottom. */
    var boardOrientation: bool
    /** The PGN of each game handed over to the page (or to the database), in order. */
    var handedOver: seq<string>

    constructor (open: bool, storedOrigin: Option<string>, boardOrientation: bool)
      ensures this.open == open && this.storedOrigin == storedOrigin && this.boardOrientation == boardOrientation
      ensures pgn == [] && gameOrigin == ChessCom && parsingError == [] && !errorTimerPending && handedOver == []
    {
      this.open := open;
      pgn := "";
      gameOrigin := ChessCom;
      parsingError := "";
      errorTimerPending := false;
      this.storedOrigin := storedOrigin;
      this.boardOrientation := boardOrientation;
      handedOver := [];
    }

    /** The open effect: a stored preferred origin naming a `GameOrigin` becomes the
        origin and is removed from storage; any other entry is left alone, and so is the
        origin. */
    method OnOpen()
      modifies this
      ensures var adopt := old(open) && old(storedOrigin).Some? && ParseOrigin(old(storedOrigin).value).Some?;
        (adopt ==> gameOrigin == ParseOrigin(old(storedOrigin).value).value && storedOrigin.None?) &&
        (!adopt ==> gameOrigin == old(gameOrigin) && storedOrigin == old(storedOrigin))
      ensures open == old(open) && pgn == old(pgn) && parsingError == old(parsingError) &&
        errorTimerPending == old(errorTimerPending) && boardOrientation == old(boardOrientation) &&
        handedOver == old(handedOver)
    {
      if open && storedOrigin.Some? {
        var preferredOrigin := storedOrigin.value;
        var parsed := ParseOrigin(preferredOrigin);
        if preferredOrigin != [] && parsed.Some? {
          gameOrigin := parsed.value;
          storedOrigin := None;
        }
      }
    }

    /** `handleClose`: clears the PGN and the error, cancels the error timer and closes. */
    method HandleClose()
      modifies this
      ensures pgn == [] && parsingError == [] && !errorTimerPending && !open
      ensures gameOrigin == old(gameOrigin) && storedOrigin == old(storedOrigin) &&
        boardOrientation == old(boardOrientation) && handedOver == old(handedOver)
    {
      pgn := "";
      parsingError := "";
      errorTimerPending := false;
      open := false;
    }

    /** `handleAddGame`, with the outcome of reading and handing over the game given. */
    method HandleAddGame(pgnText: string, orientation: Option<bool>, outcome: Option<Thrown>)
      modifies this
      ensures var r := AddGameResult(pgnText, orientation, outcome);
        (r.Ignored? ==>
           open == old(open) && pgn == old(pgn) && parsingError == old(parsingError) &&
           errorTimerPending == old(errorTimerPending) && boardOrientation == old(boardOrientation) &&
           handedOver == old(handedOver)) &&
        (r.Added? ==>
           boardOrientation == r.boardOrientation && handedOver == old(handedOver) + [pgnText] &&
           pgn == [] && parsingError == [] && !errorTimerPending && !open) &&
        (r.Failed? ==>
           parsingError == r.error && errorTimerPending &&
           open == old(open) && pgn == old(pgn) && boardOrientation == old(boardOrientation) &&
           handedOver == old(handedOver))
      ensures gameOrigin == old(gameOrigin) && storedOrigin == old(storedOrigin)
    {
      if pgnText == [] {
        return;
      }
      if outcome.None? {
        handedOver := handedOver + [pgnText];
        boardOrientation := match orientation case Some(b) => b case None => true;
        HandleClose();
      } else {
        parsingError := ErrorText(outcome.value, UnknownPgnError);
        errorTimerPending := true;
      }
    }

    /** The three-second timer, when it fires, clears the error. */
    method ErrorTimerFires()
      modifies this
      requires errorTimerPending
      ensures parsingError == [] && !errorTimerPending
      ensures open == old(open) && pgn == old(pgn) && gameOrigin == old(gameOrigin) &&
        storedOrigin == old(storedOrigin) && boardOrientation == old(boardOrientation) &&
        handedOver == old(handedOver)
    {
      parsingError := "";
      errorTimerPending := false;
    }

    /** The error alert's `onClose`: clears the error. */
    method DismissError()
      modifies this
      ensures parsingError == []
      ensures open == old(open) && pgn == old(pgn) && gameOrigin == old(gameOrigin) &&
        errorTimerPending == old(errorTimerPending) && storedOrigin == old(storedOrigin) &&
        boardOrientation == old(boardOrientation) && handedOver == old(handedOver)
    {
      parsingError := "";
    }

    /** The origin select's `onChange`: takes the new origin and clears the error. */
    method ChangeOrigin(o: GameOrigin)
      modifies this
      ensures gameOrigin == o && parsingError == []
      ensures open == old(open) && pgn == old(pgn) && errorTimerPending == old(errorTimerPending) &&
        storedOrigin == old(storedOrigin) && boardOrientation == old(boardOrientation) &&
        handedOver == old(handedOver)
    {
      gameOrigin := o;
      parsingError := "";
    }
  }
}
