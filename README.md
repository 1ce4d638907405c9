# Chesskit review and play screens in Dafny

This project models the view-model logic of Chesskit's game-review and play screens. Each
core component is one Dafny module:

- `AnalysisModal`: the game-analysis modal. It maps classifications to icons and labels,
  tallies the per-side move statistics, builds the six fixed summary rows plus the "show
  more" rows, and runs the start/finish flags of an analysis.
- `BoardNavigation`: the navigation bar under the review board. It covers the list of
  important classified moves, the next-move test and action, the jump to the next
  classified move, the keyboard shortcuts, the save test and the progress width.
- `PanelToolbar`: the panel toolbar. Its jump resets the board and replays the game up to
  the target. It also has its own key handler and the retry button.
- `NextMoveButton`: the next-move button, which also attaches the game's comment for the
  position reached.
- `EvaluationBar`: the evaluation bar. It models the effect's depth guard, the split of
  the width between the two boxes, and which box carries the label.
- `GameRecap`: the end-of-game recap. It models the render guard, the ordered
  result-decision chain and the `resigned` header.
- `AnalysisTab`: the analysis tab. It models the "game completed" test and which player
  metrics are shown.
- `GameSettingsDialog`: the new-game dialog. It models trimming, the starting-FEN choice,
  the players of the new game, the engine fallback, and the dialog's start and close
  handlers.
- `GameInProgress`: the in-progress panel. It models the game-over effect, resigning, the
  move number and the side to move.
- `AnalysisPage`: the analysis page. It models the screen transitions, the `gameId` query,
  the tab fallback, and the load and analysis-complete handlers.
- `LoadGameDialog`: the load-game dialog. It models adoption of the stored preferred
  origin, the add-game guard and error texts, the error timer, closing, and changing the
  origin.

Shared values live in `Common`:

- the optional value;
- the two colours;
- the classification enum;
- the game and its moves;
- thrown values;
- the comma-joined form of a history.

Two modules stand in for state that the components share:

- `ChessBoard.Board` is the review board. It holds the board's SAN history and the board
  actions the components call.
- `PlayState.PlaySession` holds the play page's atoms.

Component state that React keeps (`useState`, atoms) becomes class fields, and handlers
and effects become methods with `modifies` clauses. Expressions computed during rendering
become functions.

Several results come from code outside this model, so the model takes them as
parameters:

- the engine's evaluation;
- `getGameFromPgn`;
- `resetGame`;
- `getEvaluationBarValue`;
- engine support;
- chess.js's status answers (`isCheckmate`, `isDraw`, `turn`, ...).

The application compares histories through `Array.prototype.join()`. The model keeps that
comparison literally (`Common.Join`) and proves that, for SAN move tokens (non-empty,
comma-free), it is the same as comparing the histories themselves.

The panel toolbar computes `classifiedMoves` and `addNextGameMoveToBoard` exactly as the
navigation bar does (src/sections/analysis/panelToolbar/index.tsx:19-57, 97-100). It
therefore uses `BoardNavigation.ClassifiedMoves`, `BoardNavigation.CanAdvance` and
`BoardNavigation.AddNextGameMove`.

The page never sets `loadGameDialogOpen` to true (src/pages/index.tsx:43, 93, 397). The
model likewise has no handler that opens that dialog.

## Model

| member | source | states |
|---|---|---|
| AnalysisModal.ClassificationIcon | src/components/GameAnalysisModal.tsx:39-64 | Every classification, including a label outside the enum, gets an icon, a colour and a non-empty label |
| AnalysisModal.LabelsAreRenamedMemberNames | src/components/GameAnalysisModal.tsx:39-64 | Splendid is labelled "Brilliant", Perfect "Great", Okay "Good" and Opening "Book"; every other member is labelled with its own name and anything else with "Other"; no two classifications share a label |
| AnalysisModal.SideCount | src/components/GameAnalysisModal.tsx:102-114 | Counts the positions after the first whose label is that enum member, at odd indices for White and at even indices for Black; the count never exceeds the number of positions looked at |
| AnalysisModal.TallyMoveStats | src/components/GameAnalysisModal.tsx:87-119 | The imperative tally (a map seeded with every enum member, a pass over the positions, a read-out of the non-zero rows) yields exactly the specification `MoveStats` |
| AnalysisModal.MoveStats | src/components/GameAnalysisModal.tsx:87-119 | `moveStats`: the rows with a nonzero tally over every enum member, in enum order |
| AnalysisModal.StatsOfAppend | src/components/GameAnalysisModal.tsx:116-118 | The rows for two lists of classifications, one after the other, are the rows of each list in order |
| AnalysisModal.NewTable | src/components/GameAnalysisModal.tsx:90-100 | The seeded map holds a zero row, with its icon, for exactly the enum members |
| AnalysisModal.CountPositions | src/components/GameAnalysisModal.tsx:102-115 | After the pass, each enum member's row counts the positions at index > 0 with that classification: odd indices for White, even for Black |
| AnalysisModal.ReadOut | src/components/GameAnalysisModal.tsx:116-118 | Reading the map in enum order and keeping the rows with a non-zero total gives the specification rows |
| AnalysisModal.EmptyTally | src/components/GameAnalysisModal.tsx:88 | Without positions no row is produced |
| AnalysisModal.StatsOfRows | src/components/GameAnalysisModal.tsx:92-118 | A row is returned exactly for a classification of the list whose tally is non-zero, and it holds that tally |
| AnalysisModal.MoveStatsRows | src/components/GameAnalysisModal.tsx:87-119 | No evaluation, or no positions, gives no rows; every returned row has whiteCount + blackCount > 0 and is the tally of its enum member; every enum member with a non-zero tally is returned |
| AnalysisModal.MoveStatsTotal | src/components/GameAnalysisModal.tsx:92-118 | The counts of all rows sum to the number of positions at index > 0 that carry an enum classification |
| AnalysisModal.ByType | src/components/GameAnalysisModal.tsx:189 | The lookup has a key for exactly the kinds present, and each key maps to a row of that kind |
| AnalysisModal.OtherStatsMembers | src/components/GameAnalysisModal.tsx:206 | The extra rows are exactly the rows whose kind is not one of the six important ones |
| AnalysisModal.OtherStatsAppend | src/components/GameAnalysisModal.tsx:206 | The filter keeps the order of `moveStats`: filtering a concatenation concatenates the filtered parts |
| AnalysisModal.OtherStatsSingle | src/components/GameAnalysisModal.tsx:206 | A single row is kept exactly when its kind is not one of the six, so each row is kept at most once |
| AnalysisModal.DisplayStats | src/components/GameAnalysisModal.tsx:179-209 | The rows start with six rows, Splendid, Perfect, Best, Mistake, Inaccuracy, Blunder, in that order; each is the existing row of its kind or a zero row; with showMore the other rows follow, otherwise there are exactly six |
| AnalysisModal.ShowMoreButton | src/components/GameAnalysisModal.tsx:424 | The show-more button is present exactly when `moveStats` has more than six rows |
| AnalysisModal.ShowMoreRevealsRows | src/components/GameAnalysisModal.tsx:424-427 | Whenever the button is shown, showing more reveals at least one row |
| AnalysisModal.OtherRowWithoutButton | src/components/GameAnalysisModal.tsx:424 | One Excellent move gives a single row of an unimportant kind, and no button, so that row is never displayed |
| AnalysisModal.DisplayOfTally | src/components/GameAnalysisModal.tsx:179-209 | On the tally, each fixed row carries the per-side counts of its classification, and every extra row is a non-zero row of an unimportant enum member |
| AnalysisModal.GameAnalysisModal.constructor | src/components/GameAnalysisModal.tsx:72-74 | A new modal is neither analysing nor complete, and shows the short list |
| AnalysisModal.GameAnalysisModal.SetOpen | src/components/GameAnalysisModal.tsx:121-127 | Opening a closed modal clears the analysing, complete and show-more flags; closing it, or setting `open` to its current value, keeps them |
| AnalysisModal.GameAnalysisModal.TryStart | src/components/GameAnalysisModal.tsx:129-131 | A run starts exactly when the modal is open, the game has moves, and it is neither analysing nor complete |
| AnalysisModal.GameAnalysisModal.FinishRun | src/components/GameAnalysisModal.tsx:139-166 | A run with no FENs, a successful run and a failing run all end not analysing and complete; only a successful engine run stores the evaluation and resets progress to 0; the no-FEN run makes no engine call |
| AnalysisModal.GameAnalysisModal.ToggleShowMore | src/components/GameAnalysisModal.tsx:424-427 | The button exists only in the summary and only when `moveStats` has more than six rows; a click flips the flag |
| AnalysisModal.GameAnalysisModal.Body | src/components/GameAnalysisModal.tsx:259-290 | The progress view is shown exactly while analysing; the summary exactly when complete, not analysing and an evaluation exists |
| AnalysisModal.GameAnalysisModal.Rows | src/components/GameAnalysisModal.tsx:206-208 | Exactly six rows are shown unless showMore is on and some unimportant row exists |
| AnalysisModal.GameAnalysisModal.StartReviewShown | src/components/GameAnalysisModal.tsx:448 | The Start Review button is shown exactly when the run is complete |
| AnalysisModal.RunOnce | src/components/GameAnalysisModal.tsx:121-172 | Opening a closed modal on a game with moves, starting and finishing a run leaves the modal complete with the Start Review button shown, and the effect then starts nothing more |
| BoardNavigation.ExtendTagged | src/sections/analysis/boardNavigation/index.tsx:37-42 | Appending the next position when it is important keeps the list exactly the important positions, in increasing index order |
| BoardNavigation.SkipTagged | src/sections/analysis/boardNavigation/index.tsx:37-42 | Passing over a position that is not important keeps the list exact |
| BoardNavigation.StepTagged | src/sections/analysis/boardNavigation/index.tsx:37-42 | Each further position keeps the tagged list exact |
| BoardNavigation.TaggedUpToShape | src/sections/analysis/boardNavigation/index.tsx:37-42 | The tagged list holds exactly the important positions, each with its own index and position, in strictly increasing index order |
| BoardNavigation.ClassifiedMoves | src/sections/analysis/boardNavigation/index.tsx:25-43 | Without an evaluation the list is empty; otherwise it lists exactly the Splendid/Perfect/Best/Mistake/Inaccuracy/Blunder positions with their original indices, in ascending order |
| BoardNavigation.FirstAfter | src/sections/analysis/boardNavigation/index.tsx:67 | The find returns the index of the first entry past the current move, and nothing exactly when no entry lies past it |
| BoardNavigation.JumpTarget | src/sections/analysis/boardNavigation/index.tsx:65-73 | The jump target is the first classified move past the board's move |
| BoardNavigation.FirstAfterIsNextImportant | src/sections/analysis/boardNavigation/index.tsx:67 | On an exact list of the important positions, the first entry past the current move is the smallest important index above it, and there is none exactly when no such index exists |
| BoardNavigation.JumpTargetIsNextImportant | src/sections/analysis/boardNavigation/index.tsx:65-73 | The jump target is the smallest important index above the current move, and there is no target exactly when no such index exists |
| BoardNavigation.HasNextClassifiedMove | src/sections/analysis/boardNavigation/index.tsx:91 | The jump button is enabled exactly when the jump has a target |
| BoardNavigation.CanAdvance | src/sections/analysis/boardNavigation/index.tsx:89-90 | `hasNextMove`: the board is behind the game and, joined with commas, equals the game up to its length |
| BoardNavigation.CanAdvanceIffStrictPrefix | src/sections/analysis/boardNavigation/index.tsx:89-90 | On SAN histories, the joined-text test says that the board history is a strict prefix of the game history |
| BoardNavigation.AddNextGameMove | src/sections/analysis/boardNavigation/index.tsx:46-62 | When enabled, exactly the game move at index boardHistory.length is appended; when disabled, nothing changes |
| BoardNavigation.AdvanceKeepsPrefix | src/sections/analysis/boardNavigation/index.tsx:50-60 | After next-move, the board shows the game's first n + 1 moves and is still a prefix of the game |
| BoardNavigation.JumpToNextClassifiedMove | src/sections/analysis/boardNavigation/index.tsx:65-73 | With a target within the game, the board goes to that move; with no target, it is unchanged |
| BoardNavigation.OnKeyDown | src/sections/analysis/boardNavigation/index.tsx:76-87 | ArrowLeft undoes only when the board has moves; ArrowRight is next-move; other keys change nothing |
| BoardNavigation.SaveEnabled | src/sections/analysis/boardNavigation/index.tsx:94 | `enableSave`: the game is not from a link and the board or the game has moves |
| BoardNavigation.HandleSave | src/sections/analysis/boardNavigation/index.tsx:95-106 | The handler stores the game exactly when saving is enabled, never for a game from a link, and stores the evaluation with it exactly when one exists |
| BoardNavigation.ProgressWidth | src/sections/analysis/boardNavigation/index.tsx:280 | The width is 0 for a game without moves, lies between 0 and 100 while the board is within the game, and is 100 at the end |
| PanelToolbar.JumpByReplay | src/sections/analysis/panelToolbar/index.tsx:60-78 | With a target k, the board is reset and replays exactly the game's first k moves, in order; with no target, it is unchanged |
| PanelToolbar.JumpsAgree | src/sections/analysis/panelToolbar/index.tsx:60-78 | When the evaluation has one position more than the game has moves, the target never exceeds the game's length, so replaying reaches exactly move k |
| PanelToolbar.OnKeyDown | src/sections/analysis/panelToolbar/index.tsx:81-94 | ArrowLeft undoes only when the board has moves, ArrowRight is next-move, ArrowDown resets, and other keys change nothing |
| PanelToolbar.ClickRetry | src/sections/analysis/panelToolbar/index.tsx:119-122 | Retry is disabled exactly on an empty board, and a click always leaves the board at the start |
| PanelToolbar.RetryDisabled | src/sections/analysis/panelToolbar/index.tsx:122 | The retry button is disabled exactly when the board has no moves |
| NextMoveButton.FindComment | src/sections/analysis/panelToolbar/nextMoveButton.tsx:25-27 | The comment is that of the first game comment for the reached FEN, or none when no comment matches |
| NextMoveButton.AddNextGameMove | src/sections/analysis/panelToolbar/nextMoveButton.tsx:16-51 | When enabled, exactly the game move at boardHistory.length is played, with the matching comment; when disabled, nothing changes |
| NextMoveButton.OnKeyDown | src/sections/analysis/panelToolbar/nextMoveButton.tsx:53-65 | ArrowRight does what the button does; other keys do nothing |
| EvaluationBar.EvalBar.constructor | src/components/board/evaluationBar.tsx:19-22 | The bar starts at 50 % with the label "0.0" |
| EvaluationBar.EvalBar.OnPositionChange | src/components/board/evaluationBar.tsx:25-31 | The bar takes the computed value only when an evaluation exists whose first line has depth >= 6; otherwise it is unchanged |
| EvaluationBar.DeepEnough | src/components/board/evaluationBar.tsx:26-27 | The bar updates only from an evaluation whose first line reaches depth 6 |
| EvaluationBar.BoxWidths | src/components/board/evaluationBar.tsx:54-58 | The two widths sum to 100: (100 − p, p) with White orientation, (p, 100 − p) otherwise, and the box for White is p wide |
| EvaluationBar.LabelSlots | src/components/board/evaluationBar.tsx:73-77 | For a White or Black orientation the label is in exactly one box, the one for the side the value favours; with no orientation it is in neither |
| GameRecap.ResultFor | src/sections/play/gameRecap.tsx:30-72 | On checkmate the side not to move wins: "Victory!" exactly when that is the player, "Defeat" otherwise. Other outcomes are checked in priority order and titled "Draw" with their reason ("Fifty-move rule" for any other draw); "Resigned" exactly when nothing applies |
| GameRecap.ResignedHeader | src/sections/play/gameRecap.tsx:77-79 | The resigned header is the player's colour exactly when the game is not over |
| GameRecap.ResignedTitleMatchesHeader | src/sections/play/gameRecap.tsx:66-79 | With chess.js's answers consistent, "Resigned" is announced exactly when the game is not over, which is exactly when the header records the player |
| GameRecap.Renders | src/sections/play/gameRecap.tsx:28 | The recap renders only when no game is in progress and the game has at least one move |
| GameRecap.Recap | src/sections/play/gameRecap.tsx:28-72 | Nothing while a game is in progress or before any move; otherwise the result of the finished game |
| GameRecap.RecapOrPanel | src/sections/play/gameRecap.tsx:28 | Once a move has been made, exactly one of the in-progress panel and the recap is shown; before any move the recap never is |
| AnalysisTab.IsGameOverOnSan | src/sections/analysis/panelBody/analysisTab/index.tsx:22-26 | With no board moves the game is never completed; otherwise it is completed exactly on checkmate, a draw, or board history = game history |
| AnalysisTab.IsGameOver | src/sections/analysis/panelBody/analysisTab/index.tsx:22-26 | `isGameOver`: the board has moves and is checkmate, a draw, or at the game's history compared joined with commas |
| AnalysisTab.CompletedIffNoNextMove | src/sections/analysis/panelBody/analysisTab/index.tsx:22-26 | On a non-empty board following the game, with no mate or draw, "completed" holds exactly when next-move is disabled |
| AnalysisTab.Metrics | src/sections/analysis/panelBody/analysisTab/index.tsx:56-70 | Accuracy is shown exactly when an evaluation exists; the game rating only when it also has an estimated rating |
| GameSettingsDialog.TrimStart | src/sections/play/gameSettings/gameSettingsDialog.tsx:62 | The result is a suffix of the input that does not start with white space |
| GameSettingsDialog.TrimStartDropsSpace | src/sections/play/gameSettings/gameSettingsDialog.tsx:62 | Everything dropped from the front is white space |
| GameSettingsDialog.TrimEnd | src/sections/play/gameSettings/gameSettingsDialog.tsx:62 | The result is a prefix of the input that does not end with white space |
| GameSettingsDialog.TrimEndDropsSpace | src/sections/play/gameSettings/gameSettingsDialog.tsx:62 | Everything dropped from the end is white space |
| GameSettingsDialog.Trim | src/sections/play/gameSettings/gameSettingsDialog.tsx:62 | The result is no longer than the input, and it neither starts nor ends with white space |
| GameSettingsDialog.TrimIsSlice | src/sections/play/gameSettings/gameSettingsDialog.tsx:62 | The result is the slice of the input between a white-space prefix and a white-space suffix |
| GameSettingsDialog.TrimIdempotent | src/sections/play/gameSettings/gameSettingsDialog.tsx:62 | Trimming twice equals trimming once |
| GameSettingsDialog.StartingFen | src/sections/play/gameSettings/gameSettingsDialog.tsx:62-65 | An input starting with "[" is read as PGN and gives its FEN or its throw; any other input never throws, a non-empty one is used as the FEN, and an empty one gives the standard start |
| GameSettingsDialog.Setup | src/sections/play/gameSettings/gameSettingsDialog.tsx:67-83 | The player's side is "You" with no rating; the other side has the engine's label and rating; the FEN is the chosen one |
| GameSettingsDialog.SideInfo | src/sections/play/gameSettings/gameSettingsDialog.tsx:68-81 | One side's header: "You" without a rating for the player, the engine's label and rating otherwise |
| GameSettingsDialog.GameStart | src/sections/play/gameSettings/gameSettingsDialog.tsx:61-92 | The try block: the starting FEN from the trimmed input, then the reset with the players and that FEN, or the first throw |
| GameSettingsDialog.ExactlyOneYou | src/sections/play/gameSettings/gameSettingsDialog.tsx:67-82 | With an engine label other than "You", exactly one side is "You", it is the player's colour, and only the engine's side has a rating |
| GameSettingsDialog.GameStartOutcome | src/sections/play/gameSettings/gameSettingsDialog.tsx:61-92 | The start succeeds exactly when neither the PGN reading nor the reset throws; a throw is passed on unchanged; on success, the game is reset to the players with the chosen FEN |
| GameSettingsDialog.BlankInputStartsStandard | src/sections/play/gameSettings/gameSettingsDialog.tsx:62-65 | Input of only white space starts from the standard position and never consults the PGN reader |
| GameSettingsDialog.EngineFallback | src/sections/play/gameSettings/gameSettingsDialog.tsx:104-112 | A supported engine is kept; an unsupported one becomes Stockfish 16.1 Lite where 16.1 is supported, and Stockfish 11 otherwise |
| GameSettingsDialog.FallbackSettles | src/sections/play/gameSettings/gameSettingsDialog.tsx:104-112 | When the fallback engines are supported, the engine chosen is supported, so the effect it re-triggers changes nothing more |
| GameSettingsDialog.SettingsDialog.HandleClose | src/sections/play/gameSettings/gameSettingsDialog.tsx:114-118 | Closing closes the dialog and clears its input and error |
| GameSettingsDialog.SettingsDialog.constructor | src/sections/play/gameSettings/gameSettingsDialog.tsx:55-56 | The dialog starts closed, with an empty input and no error |
| GameSettingsDialog.SettingsDialog.HandleGameStart | src/sections/play/gameSettings/gameSettingsDialog.tsx:58-102 | On a throw, the error shows "<message> !" or "Unknown error while parsing input !", and the game, the in-progress flag and the dialog are unchanged; on success, the game is reset, marked in progress, and the dialog is closed and cleared |
| GameSettingsDialog.SettingsDialog.ApplyEngineFallback | src/sections/play/gameSettings/gameSettingsDialog.tsx:104-112 | The engine becomes the fallback choice and nothing else of the play state changes |
| GameInProgress.OnGameChange | src/sections/play/gameInProgress.tsx:23-25 | Once the game is over, no game is in progress; otherwise the flag is unchanged |
| GameInProgress.Resign | src/sections/play/gameInProgress.tsx:34-36 | Resigning clears the in-progress flag and changes nothing else |
| GameInProgress.MoveNumber | src/sections/play/gameInProgress.tsx:116 | The shown move number is ceil(moveCount / 2), the least n with 2n >= moveCount |
| GameInProgress.MoveNumberCountsWhiteMoves | src/sections/play/gameInProgress.tsx:116 | In a game White starts, the move number is the number of moves White has made |
| GameInProgress.CurrentPlayer | src/sections/play/gameInProgress.tsx:41 | "White" exactly when White is to move, "Black" exactly when Black is |
| GameInProgress.Panel | src/sections/play/gameInProgress.tsx:38-41 | Nothing is shown when no game is in progress; otherwise the move number and the side to move |
| AnalysisPage.Navigate | src/pages/index.tsx:71-85 | Load leads to the load screen, home and back lead to home, and every load-screen choice leads to analysis |
| AnalysisPage.ScreenAfterQuery | src/pages/index.tsx:58-64 | A non-empty string gameId switches to analysis; anything else keeps the screen |
| AnalysisPage.TabAfterFallback | src/pages/index.tsx:52-55 | Tab 1 falls back to 0 when the moves tab is hidden and tab 2 when there is no evaluation; any other tab stays; a tab 0-3 ends on a tab the bar shows |
| AnalysisPage.ShowMovesTab | src/pages/index.tsx:50 | `showMovesTab`: the game or the board has moves |
| AnalysisPage.TabShown | src/pages/index.tsx:304-339 | The bar always shows the overview and notes tabs, the moves tab when there are moves and the graph tab when an evaluation exists |
| AnalysisPage.TabFallbackIdempotent | src/pages/index.tsx:52-55 | Applying the fallback again changes nothing |
| AnalysisPage.SaveEnabledIffMovesShown | src/pages/index.tsx:50 | Saving is enabled exactly when the game is not from a link and the moves tab is shown |
| AnalysisPage.Page.constructor | src/pages/index.tsx:36-44 | The page starts on the home screen, at tab 0, with both dialogs closed |
| AnalysisPage.Page.ApplyTabFallback | src/pages/index.tsx:52-55 | The tab becomes the fallback tab and nothing else changes |
| AnalysisPage.Page.SelectTab | src/pages/index.tsx:239-240 | Choosing a tab selects it |
| AnalysisPage.Page.OnQuery | src/pages/index.tsx:58-64 | The screen becomes the one the query selects |
| AnalysisPage.Page.OnNavigate | src/pages/index.tsx:71-85 | The screen becomes the event's target and nothing else changes |
| AnalysisPage.Page.HandleGameLoad | src/pages/index.tsx:88-98 | The review board returns to the start, the loaded game becomes the page's game, the load dialog closes and the analysis modal opens |
| AnalysisPage.Page.HandleAnalysisComplete | src/pages/index.tsx:101-103 | Completing the analysis closes the modal |
| AnalysisPage.Page.CloseLoadGameDialog | src/pages/index.tsx:397 | The load dialog's close closes it |
| LoadGameDialog.ParseOrigin | src/sections/loadGame/loadGameDialog.tsx:42 | A string is accepted exactly when it is the value of some origin, and the origin returned has that value |
| LoadGameDialog.OriginRoundTrip | src/sections/loadGame/loadGameDialog.tsx:42-43 | Every origin's value reads back as that origin |
| LoadGameDialog.AddGameResult | src/sections/loadGame/loadGameDialog.tsx:54-86 | An empty PGN is ignored; without a throw the game is added with the given orientation (default true); a throw gives "<message> !" or "Invalid PGN: unknown error !" |
| LoadGameDialog.LoadDialog.constructor | src/sections/loadGame/loadGameDialog.tsx:35-49 | The dialog starts with an empty PGN, the ChessCom origin and no error |
| LoadGameDialog.LoadDialog.OnOpen | src/sections/loadGame/loadGameDialog.tsx:39-48 | On open, a stored origin that names a game origin is adopted and removed from storage; otherwise origin and storage stay |
| LoadGameDialog.LoadDialog.HandleClose | src/sections/loadGame/loadGameDialog.tsx:88-95 | Closing clears the PGN and the error, cancels the timer and closes |
| LoadGameDialog.LoadDialog.HandleAddGame | src/sections/loadGame/loadGameDialog.tsx:54-86 | An empty PGN changes nothing; success hands the game over, sets the orientation, and clears and closes the dialog; failure shows the error, starts the timer and keeps the dialog open |
| LoadGameDialog.LoadDialog.ErrorTimerFires | src/sections/loadGame/loadGameDialog.tsx:82-84 | The timer clears the error |
| LoadGameDialog.LoadDialog.DismissError | src/sections/loadGame/loadGameDialog.tsx:220 | Dismissing the alert clears the error |
| LoadGameDialog.LoadDialog.ChangeOrigin | src/sections/loadGame/loadGameDialog.tsx:172-175 | Changing the origin takes the new origin and clears the error |
| Common.JoinEquality | src/sections/analysis/boardNavigation/index.tsx:89-90 | On SAN tokens, two histories join to the same text exactly when they are equal |

## Left out

- The engine itself is not modelled. This covers `engine.evaluateGame`, `getEvaluateGameParams`, the engine-ready retry timer (GameAnalysisModal.tsx:134-137) and the progress callback. Their outcomes are parameters: whether parameter building throws, the number of FENs, and whether the engine returns an evaluation.
- chess.js is not part of this model. It covers move legality, FEN and PGN parsing, status queries and game headers. Its answers are parameters. The board keeps only its SAN history.
- `useChessActions` (src/hooks) is not part of this model. `goToMove(k)` is taken to show the game's first k moves, and to change nothing past the game's end. `resetToStartingPosition` is taken to empty the board. `playMove` is taken to append the move's SAN. Consecutive board actions inside one handler are taken to apply in sequence, each to the board the previous one left. `PanelToolbar.JumpByReplay` relies on this: it resets the board and then plays up to k moves in one callback. A hook whose actions acted on the board as last rendered would make each of those moves start from the board before the reset, and the model does not capture that behaviour.
- The order of `Object.values(MoveClassification)` is taken from the enum as declared upstream (src/types/enums.ts is not part of this model). Only the order of the tally's rows depends on it.
- `EngineName` is reduced to the two fallback engines plus any other engine. `ENGINE_LABELS` is not part of this model, so the engine's short label is a parameter.
- The `GameOrigin` string values "pgn", "chesscom" and "lichess" are taken from the enum as declared upstream.
- `Common.JoinEquality` and the lemmas built on it assume SAN tokens: non-empty and comma-free, as chess.js produces them. The application's joined comparisons are modelled literally.
- `BoardNavigation.ProgressWidth` is computed on exact reals. Floating-point rounding and `toFixed` / `Math.round` formatting are not modelled.
- `GameSettingsDialog.GameStart` and `GameSettingsDialog.GameStartOutcome` take the outcome of the game reset as a parameter. Which FENs chess.js rejects is not modelled.
- `AnalysisPage.Page.HandleGameLoad` assumes that the PGN of a chess.js game loads back. The catch around it (src/pages/index.tsx:95-97) is therefore not modelled.
- `LoadGameDialog.LoadDialog.HandleAddGame` takes one outcome for both reading the PGN and handing the game over. A hand-over that throws after changing the page is not modelled.
- `BoardNavigation.HandleSave` says which writes happen, not the writes themselves. `getGameToSave`, the database writes and the query update are asynchronous I/O.
- Persistence, routing and analytics are not modelled: `addGame`, `setGameEval`, `router.push`, `logAnalyticsEvent`, Sentry context, and the interstitial-ad message with its random throttle.
- Timing is not modelled. The error timer is a flag, and firing it is a method.
- Registering and removing keyboard listeners is not modelled. A key press is a method call.
- Styling is left out. The recap's emoji icons are the constructors of `GameRecap.ResultIcon`, and the modal's icons are kept as their icon names.
- The recap's "Analyze This Game" handlers are not modelled, apart from the header they write, which is `GameRecap.ResignedHeader`. `handleOpenGameAnalysis` (src/sections/play/gameRecap.tsx:74-91) resets the analysis board and game to the game's PGN and then opens the recap's own modal (lines 196-200). It neither saves nor navigates. `handleAnalysisComplete` (lines 94-104) closes that modal, then saves the game and navigates to the analysis page. Opening and closing the modal are the moments that `AnalysisModal.GameAnalysisModal.SetOpen(true)` and `SetOpen(false)` stand for. The board and game resets, the save and the navigation are not modelled, like the other persistence and routing.
- The modal's "Start Review" button calls the parent's callbacks. On the analysis page, those callbacks are `AnalysisPage.Page.HandleAnalysisComplete`.
