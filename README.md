# XandO tic-tac-toe: the game state and its rules

This project models the rule engine of XandO, a two-player Swing tic-tac-toe
game. All of the game lives in one window class. This model covers only the
part of it that is not user interface:

- the game state: player one's and player two's moves, each kept as a list of
  board positions in move order; the turn (0 for player one, 1 for player
  two); and the two player names;
- the board numbering: the button in row `r`, column `c` gets position
  `r * 3 + c + 1`, so positions run 1..9 row by row;
- the win test: a list wins when it holds all three positions of one of eight
  fixed lines (three rows, three columns, two diagonals). The lines are tried
  in order and the test stops at the first one found;
- a move: the clicked position goes to the list of the player whose turn it is.
  Then player one's list is tested for a win, then player two's, then the
  board is tested for being full (nine moves). Only when none of these holds
  does the turn pass to the other player;
- the reset, invoked by the start button, by a confirmed restart and by the
  "Play again" button of the result dialog;
- the names: a field that is blank after Java's `trim` gives the default
  "Player 1" / "Player 2". The result dialog shows "It's a draw!" for the name
  "No one" and `name + " wins!"` for any other name.

Modules:

- `Board` (board.dfy): the cell mapping and its inverse, the table of lines,
  the predicate `Wins`, and the loop `CheckWin` proved equal to it. It also
  holds a geometric definition of a win (a full row, column or diagonal of the
  grid) proved equivalent to the table, and the counting lemma behind "at most
  nine moves".
- `Names` (names.dfy): Java's `String.trim`, the name defaulting, and the
  result message with a function that reads the name back out of it.
- `Game` (game.dfy): the class `XandO` with the state fields and the handlers
  as methods, plus three client scenarios: a top-row win, a game played on
  1, 2, 3, ... in order, and a draw.
- `Wrappers` (wrappers.dfy): an `Option` type.

A move calls `showWinner(name)` to announce a result. In the model that call
becomes the result of `HandleMove`: the name handed to the dialog, or `None`
when the game goes on. The code never rejects a move. Its only guard is that
a button is disabled once clicked and enabled again only by the reset. So
`HandleMove` requires the position to be on the board and in neither list.
It has no error results, and there is no "game over" state.

Two consequences of the code are worth spelling out:

- Playing 1, 2, 3, ... in order does not fill the board. Player one then
  holds 1, 3, 5, 7 and completes the diagonal 3-5-7 on the seventh move, so
  the game ends there (`Game.InOrderScenario`).
- After every move both lists are tested, player one's first
  (XandO.java:169-170). `HandleMove` states that order and also its
  consequence: from a position where nobody has won, only the mover can win.

## Model

| member | source | states |
|---|---|---|
| `Board.Cell` | XandO.java:127-133 | the button in row r, column c (both 0..2) gets a position in 1..9 |
| `Board.CellInverse` | XandO.java:127-133 | the row and column of a cell's position are that cell's own row and column |
| `Board.CellBijective` | XandO.java:127-133 | every position 1..9 is the position of exactly one cell, so the mapping is a bijection from the grid onto 1..9 |
| `Board.CellInjective` | XandO.java:127-133 | two cells get the same position exactly when they are the same cell |
| `Board.CheckWin` | XandO.java:210-218 | the loop over the eight trios, returning at the first complete one, answers exactly `Wins(moves)`: at least one trio has all three positions in the list |
| `Board.WinsByTable` | XandO.java:211-215 | a list wins if and only if it contains all of {1,2,3}, {4,5,6}, {7,8,9}, {1,4,7}, {2,5,8}, {3,6,9}, {1,5,9} or {3,5,7} |
| `Board.WinsIffGeometric` | XandO.java:211-213 | the eight trios are exactly the grid's rows, columns and two diagonals: a list wins iff it holds a full row, a full column or a full diagonal of the grid |
| `Board.RowsAreTrios` | XandO.java:211 | a full grid row is exactly one of the trios 1-2-3, 4-5-6, 7-8-9 |
| `Board.ColumnsAreTrios` | XandO.java:212 | a full grid column is exactly one of the trios 1-4-7, 2-5-8, 3-6-9 |
| `Board.DiagonalsCells` | XandO.java:213 | the two full grid diagonals are exactly the trios 1-5-9 and 3-5-7 |
| `Board.RowFullCells` | XandO.java:211 | a row is full iff its three cells' positions are in the list |
| `Board.ColumnFullCells` | XandO.java:212 | a column is full iff its three cells' positions are in the list |
| `Board.WinsMonotone` | XandO.java:214-215 | the test looks only at membership: a list holding every position of a winning list also wins |
| `Board.DistinctConcat` | XandO.java:20-21 | the two lists together are duplicate-free iff each is duplicate-free and no position is in both |
| `Board.BoardCapacity` | XandO.java:167 | duplicate-free moves on the board number at most nine |
| `Board.DistinctPositions` | XandO.java:167 | duplicate-free integers drawn from lo..hi-1 number at most hi - lo |
| `Names.LeadingBlanks` | XandO.java:115-116 | the count of leading blanks (code points up to the space) of the text: every character before it is blank, and the character at it, if any, is not |
| `Names.TrimmedEnd` | XandO.java:115-116 | the end of a slice once its trailing blanks are cut: it lies within the slice, every character from it to the slice's end is blank, and the character just before it, if inside the slice, is not |
| `Names.Trim` | XandO.java:115-116 | as Java's `trim`: the result is a slice of the text, every character before the slice and every character after it is blank; the result is empty exactly when the whole text is blank, and otherwise begins and ends with a non-blank |
| `Names.TrimOfTrimmed` | XandO.java:115-116 | a text with no blank at either end is unchanged by trimming |
| `Names.TrimIdempotent` | XandO.java:115-116 | trimming twice is trimming once |
| `Names.PlayerName` | XandO.java:115-116 | an all-blank field (empty included) gives the default; any other field gives its trimmed, non-empty text |
| `Names.PlayerNameIsTrimmed` | XandO.java:115-116 | with a proper default, a player name is never empty and never begins or ends with a blank |
| `Names.PlayerNameStable` | XandO.java:115-116 | entering a name exactly as it was accepted yields the same name again |
| `Names.DefaultsAreTrimmed` | XandO.java:23-24 | "Player 1" and "Player 2" are non-empty and have no blank at either end |
| `Names.ResultMessage` | XandO.java:222 | the name "No one" gives "It's a draw!"; any other name gives a message that is that name followed by " wins!" (its inverse and its injectivity are the lemmas below) |
| `Names.WinMessageIsNotDraw` | XandO.java:222 | no "name wins!" message equals "It's a draw!" |
| `Names.ResultMessageRoundTrip` | XandO.java:222 | the name can be read back from the message it produced, for every name |
| `Names.ResultMessageInjective` | XandO.java:222 | different names give different messages; "It's a draw!" is shown for exactly one name, "No one", so a winner who entered "No one" as their name is announced as a draw |
| `Game.XandO.constructor` | XandO.java:20-24 | the game starts with both lists empty, player one to move, and the default names |
| `Game.XandO.ResetGame` | XandO.java:249-252 | from any state: both lists empty, turn 0, names kept |
| `Game.XandO.HandleMove` | XandO.java:158-174 | on turn 0 the position is appended to player one's list, otherwise to player two's, and the other list is unchanged. The lists stay duplicate-free, disjoint and on the board, and the move count grows by one and stays at most 9. Player one's win is announced first, then player two's, then "No one" when the board is full. Otherwise nothing is announced and the turn flips; on an announcement the turn stays. From a state where nobody has won, only the mover can win, and a move that passes the turn keeps strict alternation |
| `Game.XandO.StartGame` | XandO.java:114-117 | both names are taken from their fields with the default fallback, neither is blank or padded, and the game is reset |
| `Game.XandO.Restart` | XandO.java:142-146 | a confirmed restart resets the game; a declined one changes nothing |
| `Game.XandO.PlayAgain` | XandO.java:232 | leaving the result dialog always resets the game, names kept |
| `Game.MoveKeepsBoard` | XandO.java:159-167 | appending a free position to one list keeps both lists duplicate-free, disjoint and on the board, and adds one to the move count |

## Left out

- The Swing user interface: window and card layout, panels, buttons and text fields, their styling and hover effects. None of it affects the game state.
- The button text "X"/"O" and the disabling of the clicked button. Their effect on the game is expressed by `HandleMove`'s precondition, that the position is in neither list.
- The click flash, the "Let's Play!" pop-up and the bouncing result dialog. These are timer-driven, use floating point, and do not touch the game state.
- The dialogs themselves: the restart confirmation becomes the `confirmed` parameter of `Restart`. The modal result dialog becomes `PlayAgain`, its only button. The model does not capture that the modal dialog blocks inside the move handler until that button is pressed.
- The turn is an unbounded integer kept at 0 or 1 by the class invariant, and `turn ^= 1` is written as `1 - turn`. The two agree on 0 and 1, the only values the turn takes.
- `main` and the event-thread plumbing: they start the window and hold no game logic.
