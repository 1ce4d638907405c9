/** The new-game dialog of the play page
    (src/sections/play/gameSettings/gameSettingsDialog.tsx): the choice of the starting
    position, the players written into the new game, the engine fallback and the
    dialog's own input and error fields. */
module GameSettingsDialog {
  import opened Common
  import opened PlayState

  // ---- Trimming ------------------------------------------------------------------------

  /** The characters `String.prototype.trim` removes: ECMAScript white space (tab,
      vertical tab, form feed, space, no-break space, the byte-order mark and the other
      space separators) and the four line terminators. */
  predicate IsJsSpace(c: char) {
    c == '\t' || c == '\n' || c as int == 0x0B || c as int == 0x0C || c == '\r' || c == ' ' ||
    c as int == 0x00A0 || c as int == 0x1680 || (0x2000 <= c as int <= 0x200A) ||
    c as int == 0x2028 || c as int == 0x2029 || c as int == 0x202F || c as int == 0x205F ||
    c as int == 0x3000 || c as int == 0xFEFF
  }

  predicate AllSpace(s: string) {
    forall i :: 0 <= i < |s| ==> IsJsSpace(s[i])
  }

  /** Drops the white space at the front: what remains is a suffix of `s` that does not
      start with white space. */
  function TrimStart(s: string): (r: string)
    ensures |r| <= |s| && r == s[|s| - |r|..]
    ensures r == [] || !IsJsSpace(r[0])
  {
    if s != [] && IsJsSpace(s[0]) then TrimStart(s[1..]) else s
  }

  /** Everything `TrimStart` drops is white space. */
  lemma {:induction false} TrimStartDropsSpace(s: string)
    ensures AllSpace(s[..|s| - |TrimStart(s)|])
  {
    if s != [] && IsJsSpace(s[0]) {
      TrimStartDropsSpace(s[1..]);
      var r := TrimStart(s);
      assert s[..|s| - |r|] == [s[0]] + s[1..][..|s[1..]| - |r|];
    }
  }

  /** Drops the white space at the end: what remains is a prefix of `s` that does not end
      with white space. */
  function TrimEnd(s: string): (r: string)
    ensures |r| <= |s| && r == s[..|r|]
    ensures r == [] || !IsJsSpace(r[|r| - 1])
  {
    if s != [] && IsJsSpace(s[|s| - 1]) then TrimEnd(s[..|s| - 1]) else s
  }

  /** Everything `TrimEnd` drops is white space. */
  lemma {:induction false} TrimEndDropsSpace(s: string)
    ensures AllSpace(s[|TrimEnd(s)|..])
  {
    if s != [] && IsJsSpace(s[|s| - 1]) {
      TrimEndDropsSpace(s[..|s| - 1]);
      var r := TrimEnd(s);
      assert s[|r|..] == s[..|s| - 1][|r|..] + [s[|s| - 1]];
    }
  }

  /** `trim()`: the text of `s` without its leading and trailing white space; it neither
      starts nor ends with white space. */
  function Trim(s: string): (r: string)
    ensures |r| <= |s|
    ensures r == [] || (!IsJsSpace(r[0]) && !IsJsSpace(r[|r| - 1]))
  {
    TrimEnd(TrimStart(s))
  }

  /** What trimming keeps is the slice of `s` between a white-space prefix and a
      white-space suffix. */
  lemma TrimIsSlice(s: string)
    ensures exists i, j :: 0 <= i <= j <= |s| && Trim(s) == s[i..j] && AllSpace(s[..i]) && AllSpace(s[j..])
  {
    var t := TrimStart(s);
    var r := TrimEnd(t);
    var i := |s| - |t|;
    TrimStartDropsSpace(s);
    TrimEndDropsSpace(t);
    assert r == s[i..i + |r|];
    assert s[i + |r|..] == t[|r|..];
  }

  /** Trimming twice trims nothing more. */
  lemma TrimIdempotent(s: string)
    ensures Trim(Trim(s)) == Trim(s)
  {
    var r := Trim(s);
    if r != [] {
      assert !IsJsSpace(r[0]);
      assert TrimStart(r) == r;
      assert TrimEnd(r) == r;
    }
  }

  // ---- Starting position and players -------------------------------------------------------

  predicate StartsWithBracket(input: string) {
    |input| > 0 && input[0] == '['
  }

  /** The starting FEN of the new game, from the trimmed input: an input starting with "["
      is read as a PGN and the FEN of its final position is used (`pgnFen`, the outcome of
      that reading, is consulted only then); any other non-empty input is used as the
      FEN; an empty input means the standard starting position. */
  function StartingFen(input: string, pgnFen: Attempt<string>): (r: Attempt<Option<string>>)
    ensures r.Threw? ==> StartsWithBracket(input) && pgnFen == Threw(r.thrown)
    ensures StartsWithBracket(input) && pgnFen.Done? ==> r == Done(Some(pgnFen.value))
    ensures !StartsWithBracket(input) ==> r.Done? && (r.value.None? <==> input == [])
    ensures !StartsWithBracket(input) && r.value.Some? ==> r.value.value == input
  {
    if StartsWithBracket(input) then
      match pgnFen
      case Done(fen) => Done(Some(fen))
      case Threw(t) => Threw(t)
    else if input == [] then Done(None)
    else Done(Some(input))
  }

  /** The header entry of one side: "You" without a rating for the player's side, the
      engine's short label with the engine's rating for the other side. */
  function SideInfo(side: Color, playerColor: Color, engineLabel: string, engineElo: int): PlayerInfo {
    if side == playerColor then PlayerInfo("You", None) else PlayerInfo(engineLabel, Some(engineElo))
  }

  /** Both players and the starting position of the new game. */
  function Setup(playerColor: Color, engineLabel: string, engineElo: int, fen: Option<string>): (g: GameSetup)
    ensures g.fen == fen
    ensures (if playerColor == White then g.white else g.black) == PlayerInfo("You", None)
    ensures (if playerColor == White then g.black else g.white) == PlayerInfo(engineLabel, Some(engineElo))
  {
    GameSetup(
      SideInfo(White, playerColor, engineLabel, engineElo),
      SideInfo(Black, playerColor, engineLabel, engineElo),
      fen)
  }

  /** With an engine label other than "You", exactly one side of the new game is named
      "You", it is the player's side, and only the engine's side carries a rating. */
  lemma ExactlyOneYou(playerColor: Color, engineLabel: string, engineElo: int, fen: Option<string>)
    requires engineLabel != "You"
    ensures var g := Setup(playerColor, engineLabel, engineElo, fen);
      (g.white.name == "You") != (g.black.name == "You") &&
      (g.white.name == "You" <==> playerColor == White) &&
      (g.white.rating.None? <==> g.white.name == "You") &&
      (g.black.rating.None? <==> g.black.name == "You")
  {
  }

  /** The whole try block of `handleGameStart`: the starting FEN is chosen, then the game is
      reset with the players and that FEN. */
  function GameStart(input: string, playerColor: Color, engineLabel: string, engineElo: int,
                     pgnFen: Attempt<string>, resetError: Option<Thrown>): Attempt<GameSetup>
  {
    match StartingFen(Trim(input), pgnFen)
    case Threw(t) => Threw(t)
    case Done(fen) =>
      if resetError.Some? then Threw(resetError.value)
      else Done(Setup(playerColor, engineLabel, engineElo, fen))
  }

  /** A throw from reading the PGN (`pgnFen`) or from the reset (`resetError`) ends the
      game start with that thrown value, the PGN reader's first; otherwise it yields the
      setup for the player, the engine and the chosen starting FEN. */
  lemma GameStartOutcome(input: string, playerColor: Color, engineLabel: string, engineElo: int,
                         pgnFen: Attempt<string>, resetError: Option<Thrown>)
    ensures var fen := StartingFen(Trim(input), pgnFen);
      var r := GameStart(input, playerColor, engineLabel, engineElo, pgnFen, resetError);
      (r.Done? <==> fen.Done? && resetError.None?) &&
      (fen.Threw? ==> r == Threw(fen.thrown)) &&
      (fen.Done? && resetError.Some? ==> r == Threw(resetError.value)) &&
      (r.Done? ==> r.value == Setup(playerColor, engineLabel, engineElo, fen.value))
  {
  }

  /** An input that is empty or white space only starts a game from the standard starting
      position, whatever the PGN reader would have said. */
  lemma BlankInputStartsStandard(input: string, playerColor: Color, engineLabel: string, engineElo: int,
                                 pgnFen: Attempt<string>)
    requires AllSpace(input)
    ensures GameStart(input, playerColor, engineLabel, engineElo, pgnFen, None) ==
      Done(Setup(playerColor, engineLabel, engineElo, None))
  {
  }

  // ---- Engine fallback -----------------------------------------------------------------

  /** The engine the fallback effect settles on: a supported engine is kept; an unsupported
      one is replaced by Stockfish 16.1 Lite where Stockfish 16.1 is supported, otherwise by
      Stockfish 11. */
  function EngineFallback(engine: EngineName, supported: set<EngineName>, sf16_1Supported: bool): (r: EngineName)
    ensures engine in supported ==> r == engine
    ensures engine !in supported && sf16_1Supported ==> r == Stockfish16_1Lite
    ensures engine !in supported && !sf16_1Supported ==> r == Stockfish11
  {
    if engine in supported then engine
    else if sf16_1Supported then Stockfish16_1Lite
    else Stockfish11
  }

  /** When Stockfish 11 is supported, and Stockfish 16.1 Lite whenever Stockfish 16.1 is,
      the fallback ends on a supported engine, so the effect it re-triggers changes
      nothing more. */
  lemma FallbackSettles(engine: EngineName, supported: set<EngineName>, sf16_1Supported: bool)
    requires Stockfish11 in supported
    requires sf16_1Supported ==> Stockfish16_1Lite in supported
    ensures EngineFallback(engine, supported, sf16_1Supported) in supported
    ensures var e := EngineFallback(engine, supported, sf16_1Supported);
      EngineFallback(e, supported, sf16_1Supported) == e
  {
  }

  // ---- The dialog ----------------------------------------------------------------------

  const UnknownParsingError := "Unknown error while parsing input !"

  class SettingsDialog {
    /** The parent's `open` flag, which `onClose` clears. */
    var open: bool
    var startingPositionInput: string
    var parsingError: string
    const play: PlaySession

    constructor (play: PlaySession)
      ensures this.play == play && !open && startingPositionInput == [] && parsingError == []
    {
      this.play := play;
      open := false;
      startingPositionInput := "";
      parsingError := "";
    }

    /** `handleClose`: closes the dialog and clears its input and its error. */
    method HandleClose()
      modifies this
      ensures !open && startingPositionInput == [] && parsingError == []
    {
      open := false;
      startingPositionInput := "";
      parsingError := "";
    }

    /** `handleGameStart`, with the engine's short label and the outcomes of the PGN
      reading and of the game reset given. On a throw the error shows the thrown value and
      the game, the flag and the dialog stay as they were; otherwise the game is reset to
      the new setup, marked in progress, and the dialog is closed and cleared. */
    method HandleGameStart(engineLabel: string, pgnFen: Attempt<string>, resetError: Option<Thrown>)
      modifies this, play
      ensures var r := GameStart(old(startingPositionInput), old(play.playerColor), engineLabel,
                                 old(play.engineElo), pgnFen, resetError);
        if r.Threw? then
          parsingError == ErrorText(r.thrown, UnknownParsingError) &&
          open == old(open) && startingPositionInput == old(startingPositionInput) &&
          play.isGameInProgress == old(play.isGameInProgress) && play.setup == old(play.setup)
        else
          play.setup == Some(r.value) && play.isGameInProgress &&
          !open && startingPositionInput == [] && parsingError == []
      ensures play.playerColor == old(play.playerColor) && play.engineName == old(play.engineName) &&
        play.engineElo == old(play.engineElo)
    {
      parsingError := "";
      var attempt := GameStart(startingPositionInput, play.playerColor, engineLabel, play.engineElo,
                               pgnFen, resetError);
      if attempt.Threw? {
        parsingError := ErrorText(attempt.thrown, UnknownParsingError);
        return;
      }
      play.setup := Some(attempt.value);
      play.isGameInProgress := true;
      HandleClose();
    }

    /** The engine fallback effect, with the engines the browser supports given. */
    method ApplyEngineFallback(supported: set<EngineName>, sf16_1Supported: bool)
      modifies play
      ensures play.engineName == EngineFallback(old(play.engineName), supported, sf16_1Supported)
      ensures play.isGameInProgress == old(play.isGameInProgress) && play.playerColor == old(play.playerColor) &&
        play.engineElo == old(play.engineElo) && play.setup == old(play.setup)
    {
      if play.engineName !in supported {
        if sf16_1Supported {
          play.engineName := Stockfish16_1Lite;
        } else {
          play.engineName := Stockfish11;
        }
      }
    }
  }
}
