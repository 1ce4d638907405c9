/** The analysis page (src/pages/index.tsx): which screen is shown, which panel tab is
    selected and when it falls back, and what loading a game and completing its analysis
    do to the dialogs. */
module AnalysisPage {
  import opened Common
  import opened ChessBoard
  import opened BoardNavigation

  datatype Screen = Home | Load | Analysis

  /** The `gameId` entry of the router query: absent, one string, or several strings. */
  datatype QueryValue = Absent | Single(s: string) | Several(values: seq<string>)

  /** The navigation events of the page's screens: the load-game and home buttons, the
      back button of the load screen, and its Chess.com, Lichess, paste-PGN and
      go-to-analysis choices. */
  datatype NavEvent = LoadGame | HomeClick | BackToHome | ChessCom | Lichess | PastePgn | NavigateToAnalysis

  /** The screen an event leads to: load-game leads to the load screen, home and back to
      the home screen, and every choice of the load screen to the analysis screen. */
  function Navigate(e: NavEvent): (s: Screen)
    ensures s == Load <==> e == LoadGame
    ensures s == Home <==> e == HomeClick || e == BackToHome
    ensures s == Analysis <==> e in {ChessCom, Lichess, PastePgn, NavigateToAnalysis}
  {
    match e
    case LoadGame => Load
    case HomeClick => Home
    case BackToHome => Home
    case _ => Analysis
  }

  /** The `gameId` effect: a non-empty string switches to the analysis screen; anything
      else leaves the screen as it is. */
  function ScreenAfterQuery(screen: Screen, gameId: QueryValue): (s: Screen)
    ensures s == Analysis <==> screen == Analysis || (gameId.Single? && gameId.s != [])
    ensures s != Analysis ==> s == screen
  {
    if gameId.Single? && gameId.s != [] then Analysis else screen
  }

  /** `showMovesTab`: the game or the board has moves. */
  predicate ShowMovesTab(gameHistory: seq<string>, boardHistory: seq<string>) {
    |gameHistory| > 0 || |boardHistory| > 0
  }

  /** The tab bar shows the overview (0) and notes (3) tabs always, the moves tab (1) when
      there are moves and the graph tab (2) when an evaluation exists. */
  predicate TabShown(tab: int, showMoves: bool, hasEval: bool) {
    tab == 0 || tab == 3 || (tab == 1 && showMoves) || (tab == 2 && hasEval)
  }

  /** The tab fallback effect: the moves tab falls back to the overview when it is hidden,
      the graph tab when there is no evaluation; any other tab stays. */
  function TabAfterFallback(tab: int, showMoves: bool, hasEval: bool): (t: int)
    ensures t == 0 || t == tab
    ensures t != tab <==> (tab == 1 && !showMoves) || (tab == 2 && !hasEval)
    ensures 0 <= tab <= 3 ==> TabShown(t, showMoves, hasEval)
  {
    if tab == 1 && !showMoves then 0
    else if tab == 2 && !hasEval then 0
    else tab
  }

  /** The fallback settles in one step: applied again it changes nothing. */
  lemma TabFallbackIdempotent(tab: int, showMoves: bool, hasEval: bool)
    ensures var t := TabAfterFallback(tab, showMoves, hasEval);
      TabAfterFallback(t, showMoves, hasEval) == t
  {
  }

  /** The save button of the navigation bar is enabled exactly when the game was not
      opened from a link and the moves tab is shown. */
  lemma SaveEnabledIffMovesShown(gameFromUrl: bool, boardHistory: seq<string>, gameHistory: seq<string>)
    ensures SaveEnabled(gameFromUrl, boardHistory, gameHistory) <==>
      !gameFromUrl && ShowMovesTab(gameHistory, boardHistory)
  {
  }

  class Page {
    var tab: int
    var currentScreen: Screen
    var loadGameDialogOpen: bool
    var analysisModalOpen: bool
    /** The loaded game (`gameAtom`) and its evaluation (`gameEvalAtom`). */
    var game: Game
    var gameEval: Option<GameEval>
    /** The review board (`boardAtom`). */
    const board: Board

    constructor (board: Board, game: Game, gameEval: Option<GameEval>)
      ensures tab == 0 && currentScreen == Home
      ensures !loadGameDialogOpen && !analysisModalOpen
      ensures this.board == board && this.game == game && this.gameEval == gameEval
    {
      tab := 0;
      currentScreen := Home;
      loadGameDialogOpen := false;
      analysisModalOpen := false;
      this.board := board;
      this.game := game;
      this.gameEval := gameEval;
    }

    function ShowsMovesTab(): bool
      reads this, board
    {
      ShowMovesTab(History(game), board.history)
    }

    /** The tab fallback effect, run after the tab, the histories or the evaluation
        change. */
    method ApplyTabFallback()
      modifies this
      ensures tab == TabAfterFallback(old(tab), ShowsMovesTab(), gameEval.Some?)
      ensures 0 <= old(tab) <= 3 ==> TabShown(tab, ShowsMovesTab(), gameEval.Some?)
      ensures currentScreen == old(currentScreen) && loadGameDialogOpen == old(loadGameDialogOpen) &&
        analysisModalOpen == old(analysisModalOpen) && game == old(game) && gameEval == old(gameEval)
    {
      var showMovesTab := |History(game)| > 0 || |board.history| > 0;
      if tab == 1 && !showMovesTab {
        tab := 0;
      }
      if tab == 2 && gameEval.None? {
        tab := 0;
      }
    }

    /** The tab bar's `onChange`. */
    method SelectTab(newValue: int)
      modifies this
      ensures tab == newValue
      ensures currentScreen == old(currentScreen) && loadGameDialogOpen == old(loadGameDialogOpen) &&
        analysisModalOpen == old(analysisModalOpen) && game == old(game) && gameEval == old(gameEval)
    {
      tab := newValue;
    }

    /** The `gameId` query effect. */
    method OnQuery(gameId: QueryValue)
      modifies this
      ensures currentScreen == ScreenAfterQuery(old(currentScreen), gameId)
      ensures tab == old(tab) && loadGameDialogOpen == old(loadGameDialogOpen) &&
        analysisModalOpen == old(analysisModalOpen) && game == old(game) && gameEval == old(gameEval)
    {
      if gameId.Single? && gameId.s != [] {
        currentScreen := Analysis;
      }
    }

    /** The navigation handlers of the home and load screens. */
    method OnNavigate(e: NavEvent)
      modifies this
      ensures currentScreen == Navigate(e)
      ensures tab == old(tab) && loadGameDialogOpen == old(loadGameDialogOpen) &&
        analysisModalOpen == old(analysisModalOpen) && game == old(game) && gameEval == old(gameEval)
    {
      match e {
        case LoadGame => currentScreen := Load;
        case HomeClick => currentScreen := Home;
        case BackToHome => currentScreen := Home;
        case _ => currentScreen := Analysis;
      }
    }

    /** `handleGameLoad`: the review board goes back to the starting position, the loaded
        game becomes the page's game, the load dialog closes and the analysis modal opens. */
    method HandleGameLoad(loaded: Game)
      modifies this, board
      ensures board.history == [] && game == loaded
      ensures !loadGameDialogOpen && analysisModalOpen
      ensures tab == old(tab) && currentScreen == old(currentScreen) && gameEval == old(gameEval)
    {
      board.Reset();
      game := loaded;
      loadGameDialogOpen := false;
      analysisModalOpen := true;
    }

    /** `handleAnalysisComplete` and the modal's `onClose`: the analysis modal closes. */
    method HandleAnalysisComplete()
      modifies this
      ensures !analysisModalOpen
      ensures tab == old(tab) && currentScreen == old(currentScreen) && loadGameDialogOpen == old(loadGameDialogOpen) &&
        game == old(game) && gameEval == old(gameEval)
    {
      analysisModalOpen := false;
    }

    /** The load dialog's `onClose`. */
    method CloseLoadGameDialog()
      modifies this
      ensures !loadGameDialogOpen
      ensures tab == old(tab) && currentScreen == old(currentScreen) && analysisModalOpen == old(analysisModalOpen) &&
        game == old(game) && gameEval == old(gameEval)
    {
      loadGameDialogOpen := false;
    }
  }
}
