# Tetris view layer — a verified model

This project models the view side of a Swing Tetris game: the window
(`TetrisGUI`), the board panel (`GamePanel`), the statistics panel
(`GameStatsPanel`) and the next-piece preview (`NextPiecePreviewPanel`).
The board engine itself (`model.Board`, `model.MovableTetrisPiece`) is not
part of this model. It appears only as a collaborator that records the
operations asked of it (`newGame`, `left`, `right`, `down`, `rotate`,
`drop`). It also sends four kinds of notification: a text snapshot of the
board, the array of rows a lock cleared, a game-over flag, and the next
piece as text.

Modules, one per source file plus two shared ones:

- `Events` (events.dfy): the board stand-in, its notifications, the property
  changes the window fires, and the gravity timer as a `delay` and a
  `running` flag.
- `JavaText` (java_text.dfy): `String.split` with a literal separator and with
  the pattern `\r?\n`, and `Integer.parseInt`, with the round-trip lemmas the
  decoders need.
- `GameStats` (game_stats.dfy): score, lines cleared, level, timer delay and
  the five painted messages.
- `Gui` (tetris_gui.dfy): the session state machine (game over, timer
  running, delay, menu enablement), key dispatch, and the "W x H" size labels.
- `BoardView` (game_panel.dfy): decoding the board snapshot into drawn cells,
  and the panel's paused / game-over flags.
- `PiecePreview` (next_piece_preview.dfy): decoding the next piece's text into
  painted squares with their integer origins.

Each source class whose methods update fields is a Dafny `class` with those
fields. Its methods are specified against pure functions (`Receive`,
`AfterStartGame`, `BoardLines`, `Painted`, …), and the properties are
proved as lemmas about those functions. The lemmas cover level and delay
progression, scoring, menu consistency over any event sequence, pause and
focus round trips, and snapshot and label round trips.

The statistics panel sets the gravity delay to `1000 - (lines / 5) * 75`
with no lower bound, so the value is negative from 70 lines on. Swing's
timer refuses a negative delay with an exception. From then on each
cleared-rows notification still adds to the counters and plays its sounds,
but the delay keeps its last accepted value (25 ms) and a cleared-rows
notification no longer refreshes the painted messages; the next property
change other than a game end, such as a pause or a focus change, still does. `GameStats.GameStatsPanel.Update` models
this with its `completed` result.

## Model

| member | source | states |
|---|---|---|
| `GameStats.Level` | src/view/GameStatsPanel.java:173-175 | the level is at least 1 and is the one `k` with `5k <= lines + 5 < 5(k+1)`, i.e. `1 + lines / 5` |
| `GameStats.LevelMonotone` | src/view/GameStatsPanel.java:173-175 | the level never decreases as lines accumulate |
| `GameStats.LevelStep` | src/view/GameStatsPanel.java:173-175 | five more lines are exactly one more level |
| `GameStats.LinesUntilNextLevel` | src/view/GameStatsPanel.java:184-186 | the "lines until next level" count is in 1..5; that many more lines raise the level by one, and every smaller count leaves it unchanged |
| `GameStats.LevelUpIff` | src/view/GameStatsPanel.java:223-229 | adding rows raises the level iff the rows reach the "lines until next level" count |
| `GameStats.ScoreGain` | src/view/GameStatsPanel.java:232-238 | a clear scores nothing iff no rows, between 100 and 200 points per row otherwise, and the full 200 per row only for four rows |
| `GameStats.ScoringRules` | src/view/GameStatsPanel.java:232-238 | 0 rows score nothing, 1-3 rows score 100 each, 4 rows score 800 (twice four single rows) |
| `GameStats.DelayFor` | src/view/GameStatsPanel.java:240-242 | the delay never exceeds 1000, drops from it in whole 75 ms steps, and stays at 1000 exactly for the first 4 lines |
| `GameStats.DelayFollowsLevel` | src/view/GameStatsPanel.java:240-242 | the delay set after an update is 1000 less 75 per level above the first |
| `GameStats.DelayNonIncreasing` | src/view/GameStatsPanel.java:240-242 | more lines cleared never lengthen the delay |
| `GameStats.DelayNegativeFrom70` | src/view/GameStatsPanel.java:240-242 | with no floor, the delay is negative exactly from 70 lines on, and at least 25 below that |
| `GameStats.SoundsFor` | src/view/GameStatsPanel.java:223-238 | the level-up sound plays iff the level rises; exactly one of the bonus and line-cleared sounds plays, the bonus one iff 4 rows |
| `GameStats.Receive` | src/view/GameStatsPanel.java:219-238 | only a cleared-rows notification changes the counters; it adds exactly its length to the lines, and neither counter decreases |
| `GameStats.ReceiveAllTotals` | src/view/GameStatsPanel.java:219-238 | over any sequence of notifications the lines grow by the rows reported and the score by the points earned |
| `GameStats.StatMessages` | src/view/GameStatsPanel.java:180-189 | five messages: score, lines, lines-until-next-level in 1..5, level at least 1, timer delay |
| `GameStats.GameStatsPanel.constructor` | src/view/GameStatsPanel.java:108-122 | a new panel has zero score and lines and shows their messages |
| `GameStats.GameStatsPanel.UpdateStatMessageList` | src/view/GameStatsPanel.java:180-189 | the message list is refilled from the counters and the timer's delay, counters untouched |
| `GameStats.GameStatsPanel.PropertyChange` | src/view/GameStatsPanel.java:197-210 | `endGame = true` zeroes score and lines and keeps the old messages; any other change refreshes the messages and keeps the counters |
| `GameStats.GameStatsPanel.Update` | src/view/GameStatsPanel.java:219-246 | a cleared-rows notification applies `Receive` and plays `SoundsFor`; it completes iff the new line count is below 70, and then sets the delay to `DelayFor` and refreshes the messages; from 70 lines the timer refuses the negative delay and the delay and messages stay as they were; anything else changes nothing |
| `Gui.SwitchMenus` | src/view/TetrisGUI.java:566-572 | "End Game" enabled iff not over, "New Game" and the size menu iff over, so exactly one of End/New is enabled; nothing else changes |
| `Gui.AfterStartGame` | src/view/TetrisGUI.java:577-593 | a started game is not over, its timer runs at delay 1000, and only "End Game" is enabled |
| `Gui.AfterEndGame` | src/view/TetrisGUI.java:598-605 | an ended game is over with its timer stopped and delay kept, and only "New Game" is enabled |
| `Gui.AfterPauseOrResume` | src/view/TetrisGUI.java:610-617 | only the running flag changes; during a game it flips, and once the game is over it is set |
| `Gui.AfterFocusGained` | src/view/TetrisGUI.java:639-644 | only the running flag changes; afterwards the timer runs iff it ran already or the game is not over |
| `Gui.AfterFocusLost` | src/view/TetrisGUI.java:652-657 | only the running flag changes; afterwards the timer runs iff it ran and the game is over |
| `Gui.PauseTwiceRestores` | src/view/TetrisGUI.java:610-617 | during a game P flips the timer's running flag and pressing it twice restores the session |
| `Gui.FocusRoundTrip` | src/view/TetrisGUI.java:639-657 | focus loss stops a running game, focus gain restores it, and focus gain also resumes a game paused with P |
| `Gui.GameOverIgnoresInput` | src/view/TetrisGUI.java:639-728 | once the game is over, focus changes and key presses change nothing and ask nothing of the board |
| `Gui.KeyOp` | src/view/TetrisGUI.java:702-725 | exactly LEFT, RIGHT, DOWN, SPACE and ENTER are bound to an operation; P is not, and no key asks for a new game |
| `Gui.AfterKey` | src/view/TetrisGUI.java:696-699 | a key changes at most the running flag, and only P during a game changes it |
| `Gui.KeyOps` | src/view/TetrisGUI.java:693-728 | a key press asks at most one operation, only during a game whose timer runs, and never a new game |
| `Gui.KeyDispatch` | src/view/TetrisGUI.java:693-728 | a key asks at most one board operation; LEFT/RIGHT/DOWN/SPACE/ENTER ask left/right/down/rotate/drop exactly while a game runs |
| `Gui.ParseSizeLabel` | src/view/TetrisGUI.java:283-286 | a label gives dimensions only if it contains " x ", and then both are 32-bit values; an empty label fails to parse |
| `Gui.SizeLabelRoundTrip` | src/view/TetrisGUI.java:283-286 | a label "W x H" gives width W (the first number) and height H |
| `Gui.MenuSizes` | src/view/TetrisGUI.java:273-321 | the three labels give boards of 10x20, 15x15 and 15x30 |
| `Gui.Launched` | src/view/TetrisGUI.java:662-670 | after `start()` no game runs and only "New Game" is enabled |
| `Gui.RunKeepsConsistent` | src/view/TetrisGUI.java:566-657 | every event sequence keeps the menus matching the game-over flag and keeps the timer stopped once a game is over |
| `Gui.TetrisGui.constructor` | src/view/TetrisGUI.java:131-153 | a new window has no game, a stopped timer at delay 1000 and all menu items enabled |
| `Gui.TetrisGui.Start` | src/view/TetrisGUI.java:662-670 | showing the window switches the menus to fit |
| `Gui.TetrisGui.SwitchFileMenuButtonsState` | src/view/TetrisGUI.java:566-572 | the window's menu flags become `SwitchMenus` of its state |
| `Gui.TetrisGui.StartGame` | src/view/TetrisGUI.java:577-593 | the board gets `newGame`, the state becomes `AfterStartGame`, and `endGame = false` is fired |
| `Gui.TetrisGui.EndGame` | src/view/TetrisGUI.java:598-605 | the state becomes `AfterEndGame` and `endGame = true` is fired |
| `Gui.TetrisGui.PauseOrResumeGame` | src/view/TetrisGUI.java:610-617 | the timer is stopped if running in an active game, started otherwise, and `paused = !running` is fired |
| `Gui.TetrisGui.Update` | src/view/TetrisGUI.java:626-631 | any game-over notification ends the game whatever flag it carries; other notifications change nothing |
| `Gui.TetrisGui.FocusGained` | src/view/TetrisGUI.java:639-644 | a stopped game that is not over is resumed and `paused = false` fired; otherwise nothing |
| `Gui.TetrisGui.FocusLost` | src/view/TetrisGUI.java:652-657 | a running game that is not over is stopped and `paused = true` fired; otherwise nothing |
| `Gui.TetrisGui.TimerTick` | src/view/TetrisGUI.java:136-145 | a tick asks the board to move down, and only a running timer ticks |
| `Gui.TetrisGui.KeyPressed` | src/view/TetrisGUI.java:693-728 | the board receives exactly `KeyOps` of the old state and the state becomes `AfterKey` |
| `Gui.TetrisGui.SelectSize` | src/view/TetrisGUI.java:283-289 | a parsed label builds a fresh board of that width and height, fires `size` then starts a game; an unparsable label changes nothing |
| `BoardView.BoardLines` | src/view/GamePanel.java:378-383 | the kept lines exist iff the split snapshot has at least five lines, and are the split lines after the first five |
| `BoardView.DrawGame` | src/view/GamePanel.java:293-296 | exactly the non-space interior characters of every line but the last are drawn, each once, at (row i, column j-1), in row-major order |
| `BoardView.OccupiedWithinWalls` | src/view/GamePanel.java:293-296 | drawn rows lie in [0, lines-2] and columns in [0, length-3] |
| `BoardView.SnapshotRoundTrip` | src/view/GamePanel.java:293-383 | a snapshot of five header lines, walled grid rows and a floor is decoded to exactly the grid's occupied cells |
| `BoardView.HeightToWidthRatio` | src/view/GamePanel.java:120-124 | the ratio is 1 for a square board and 2 otherwise |
| `BoardView.GamePanel.constructor` | src/view/GamePanel.java:115-131 | a new panel has the board's ratio, no snapshot, no flags set and the default colour |
| `BoardView.GamePanel.PropertyChange` | src/view/GamePanel.java:343-368 | `paused` sets only paused; `endGame` sets game-over and clears paused; a colour selects it and leaves random mode, a null colour enters it; grid, circle and size set their own field |
| `BoardView.GamePanel.Update` | src/view/GamePanel.java:377-388 | a snapshot is split and trimmed by `BoardLines`, failing with the untrimmed lines stored when under five lines; a game-over flag sets game-over to its value; nothing else changes |
| `BoardView.GamePanel.Paint` | src/view/GamePanel.java:180-191 | no cells while paused or before a snapshot, otherwise exactly the occupied cells; the game-over message shows iff game over |
| `PiecePreview.DrawNextPiece` | src/view/NextPiecePreviewPanel.java:139-174 | exactly the characters other than space, `|` and `-` are painted, once each in row-major order, at y = padding + i·size and x = padding + j·size for I and O, size + j·size otherwise |
| `PiecePreview.PaddingOffset` | src/view/NextPiecePreviewPanel.java:115-166 | I and O pieces start left of the others by the short padding (width/10), or one pixel more, which is exactly half a block when the width is a multiple of ten |
| `PiecePreview.SquaresFitPanel` | src/view/NextPiecePreviewPanel.java:115-166 | any block in the first four rows and columns lies inside a panel of that width |
| `PiecePreview.SquaresDistinct` | src/view/NextPiecePreviewPanel.java:152-166 | two different block characters of the same start class never land on the same square, whatever the roundness |
| `PiecePreview.NextPiecePreviewPanel.constructor` | src/view/NextPiecePreviewPanel.java:85-98 | a new panel has no piece, square blocks and the default colour |
| `PiecePreview.NextPiecePreviewPanel.PropertyChange` | src/view/NextPiecePreviewPanel.java:184-196 | a colour selects it and leaves random mode, a null colour enters it; `circle` sets the shape; nothing else changes |
| `PiecePreview.NextPiecePreviewPanel.Update` | src/view/NextPiecePreviewPanel.java:205-211 | only a next-piece notification replaces the kept lines, split on `\n` or `\r\n` |
| `PiecePreview.NextPiecePreviewPanel.Paint` | src/view/NextPiecePreviewPanel.java:106-125 | nothing before a piece arrives; then its blocks with size width/5, padding width/10, and roundness equal to the size in circle mode, 0 otherwise |
| `JavaText.JavaSplit` | src/view/GamePanel.java:379 | a text without the separator is its own single piece; no piece contains a one-character separator; several pieces never end with an empty one |
| `JavaText.SplitLinesCrLf` | src/view/NextPiecePreviewPanel.java:207 | a text without a line feed is a single line, and no line contains a line feed |
| `JavaText.ParseInt` | src/view/TetrisGUI.java:285-286 | a parsed value is within 32 bits, and the text starts with a digit or a sign |
| `JavaText.JavaSplitJoin` | src/view/GamePanel.java:379 | lines joined with `\n` (last one non-empty) come back from `split` unchanged |
| `JavaText.SplitLinesCrLfJoin` | src/view/NextPiecePreviewPanel.java:207 | lines joined with `\n` or with `\r\n` come back unchanged from `split("\\r?\\n")` |
| `JavaText.ParseShowNat` | src/view/TetrisGUI.java:285-286 | `Integer.parseInt` reads back every non-negative `int` written in decimal |

## Left out

- The board engine (`model.Board`, `model.MovableTetrisPiece`) is not part of this model: collision, rotation, line clearing and piece generation are not modelled. The board only records the operations it receives, and its notifications are inputs.
- The text formats of the board snapshot and of the piece come from the engine's `toString`, which is not part of this model. The decoders accept any text, and the round-trip lemmas assume a walled layout.
- Swing painting, fonts, borders, layout, `repaint` and the fill colour of each square are not modelled. A paint is modelled as the list of cells or squares it would draw plus the two message flags.
- The floating-point scale and padding of the board panel are not modelled (floating point). Drawn cells are given in grid coordinates.
- Loading the background image from disk is not modelled (file I/O).
- Sound playback, preloading, muting and background looping are not modelled (foreign calls). The statistics panel returns the sounds it would play as abstract events.
- The `javax.swing.Timer` thread is a `running` flag and an integer `delay`. The refusal of a negative delay is modelled as a result of `SetDelay`. Where the exception goes after it leaves the statistics panel is not modelled: it escapes into the board's notification loop, whose code is not part of this model.
- The score and the lines cleared are Java `int` fields whose additions wrap past 2^31 - 1; the model counts them as unbounded naturals. Reaching that would take about 2.7 million four-row clears in one game.
- JavaText.ParseInt: accepts only ASCII digits, whereas Java's `parseInt` also accepts decimal digits of other Unicode scripts; the size labels it reads are fixed ASCII text.
- Random colours in special colour mode are not modelled (randomness). Only the mode flag is kept.
- `ColorAction` and `TetrisMain` are event wiring and launch code. Their effect reaches the panels as `color` property changes.
- Observer and property-change listener registration is not modelled. Window methods return the property changes they fire.
- The mute option and the grid option's menu item only fire events or drive sound. The grid flag is kept by the board panel.
- The board panel's preferred size from the board's dimensions is layout and is not modelled.
- The window's default board is passed to its constructor, because the engine's default dimensions are not part of this model.
