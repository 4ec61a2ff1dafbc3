# Memory puzzle: a verified model of the game session

This project models the core of a single-screen memory game written for
pygame (`memorypuzzle.py`). The game shows a grid of 8 × 6 face-down boxes.
Each box hides one icon, a shape in a colour, and every icon on the board
occurs in exactly two boxes. The player clicks two boxes per turn. A
matching pair stays face up and scores 5 points times the streak. A
mismatch is covered again, resets the streak and costs up to 2 points. The
session restarts when the board is cleared or when the countdown expires.

The model keeps the game's own structure:

- `Config` holds the integer constants of the game (lines 7-17 except
  `REVEALSPEED`), with `XMARGIN` = 120 and `YMARGIN` = 90.
- `Icons` holds the shapes, the colours (as names, not RGB triples) and the
  catalogue of the 35 shape/colour icons, built by the game's two nested loops.
- `Grid` holds the cells, the reveal grid (`generateRevealedBoxesData`,
  `hasWon`) and the cell lookup `getShapeAndColor`.
- `Generator` holds `getRandomizedBoard`. Each `random.shuffle` is replaced by
  an arbitrary permutation of indices given by the caller. So the pairing
  invariant is proved for every outcome of the shuffles.
- `Geometry` holds `leftTopCoordsOfBox` and `getBoxAtPixel`. The scan is
  proved equal to a closed-form `BoxAt` that uses division by the pitch.
- `Groups` holds `splitIntoGroupsOf`.
- `Scoring` holds the arithmetic of a turn and the high-score comparison of
  the end screen.
- `Game` holds the body of the main loop as a `Session` class. Its fields are
  the board, the reveal grid, the pending first selection, the score, the
  streak and the countdown. `Click` models a mouse click (lines 123-177).
  `Timeout` models the expiry of the countdown (lines 94-111).
- `Scenarios` plays concrete sessions on the board dealt by the identity
  shuffles, through the same `Click` and `Timeout` methods.

Two invariants are kept for the session. `Valid` says the grids have the
board's shape, the board is paired, the streak is in 0..3 and the score is
never negative. `Consistent` adds two facts: the pending selection is face
up, and every other face-up box has a face-up partner with the same icon.
`Click` preserves both. In a consistent session a second selection always
differs from the first, and the pair that uncovers the last hidden box wins.
The timeout as written does not preserve `Consistent`; see "## Findings".
A third predicate, `Stranded`, describes the state that the timeout can leave
behind: a revealed box, not pending, whose partner is hidden or pending.
`Click` keeps `Stranded`, and no click from a stranded session wins.

The model follows the code in three places where other behaviour might be
expected:

- On the winning match the code adds points for the streak as it was,
  without first raising it (line 157). A non-winning match raises it first
  (lines 153-155).
- The timeout reset sets the score and the time back, but keeps `streak`
  and `firstSelection` (lines 110-111). Resetting the whole score state and
  discarding the pending selection might be expected.
- An unreadable high-score file is not handled: the code would fail when it
  parses the file (line 374). The file is not modelled.

## Model

| member | source | states |
|---|---|---|
| `Config.StartupAssertionsHold` | memorypuzzle.py:11-45 | the board has an even number of boxes (line 15); the 35 icons cover half the board (line 45); the margins are 120 and 90 pixels, both non-negative |
| `Icons.BuildCatalogue` | memorypuzzle.py:193-196 | the nested colour/shape loops produce the catalogue: entry `k` is shape `k mod 5` in colour `k div 5` |
| `Icons.CatalogueExactlyOnce` | memorypuzzle.py:193-196 | every shape/colour pair is in the catalogue at exactly one position |
| `Icons.CatalogueDistinct` | memorypuzzle.py:193-196 | two catalogue positions that hold the same icon are the same position |
| `Grid.GenerateRevealedBoxesData` | memorypuzzle.py:184-188 | the result has `BOARDWIDTH` columns of `BOARDHEIGHT` entries, all equal to the given value |
| `Grid.HasWon` | memorypuzzle.py:402-407 | true iff every entry of every column is true; false iff some entry is false |
| `Grid.WonIffEveryCell` | memorypuzzle.py:402-407 | on a board-shaped grid, being won is the same as every box being revealed |
| `Grid.FreshGridNeverWon` | memorypuzzle.py:184-188 | the all-hidden grid is never won; the all-revealed grid is |
| `Grid.Update` | memorypuzzle.py:128-143 | the writes `revealedBoxes[x][y] = v`: the grid keeps its shape, box `c` now holds `v`, and every other box is unchanged |
| `Grid.GetShapeAndColor` | memorypuzzle.py:261-264 | the shape and the colour returned are the two parts of the icon stored in box `(boxx, boxy)` |
| `Grid.SameShapeAndColorIffSameIcon` | memorypuzzle.py:261-264 | comparing shape and colour separately, as the game does, is comparing the whole icon |
| `Generator.DoubledSameValue` | memorypuzzle.py:200 | in a doubled list of distinct icons, two positions hold the same icon iff they are equal or half the list apart |
| `Generator.ShuffledDoubleEachTwice` | memorypuzzle.py:200-201 | any shuffle of a doubled list of distinct icons holds each icon on exactly two positions |
| `Generator.ChosenDistinct` | memorypuzzle.py:198-200 | the first 24 icons of any shuffle of the catalogue are distinct |
| `Generator.Deck` | memorypuzzle.py:198-201 | the doubled and reshuffled list has 48 entries, each icon on exactly two of them |
| `Generator.DealHasPartners` | memorypuzzle.py:204-210 | dealing such a list gives each box a different box with the same icon |
| `Generator.DealNoTriple` | memorypuzzle.py:204-210 | dealing such a list gives no three boxes the same icon |
| `Generator.DealPaired` | memorypuzzle.py:204-210 | dealing such a list column by column gives a paired board |
| `Generator.DealtBoard` | memorypuzzle.py:191-211 | for any two shuffles the board has 8 columns of 6 boxes; box `(x, y)` holds deck entry `x*6+y`; every icon on it is in exactly two boxes |
| `Generator.GetRandomizedBoard` | memorypuzzle.py:191-211 | the loops that build, shuffle, double and deal produce `DealtBoard` for the two shuffles, so the board is paired |
| `Geometry.LeftTopCoordsOfBox` | memorypuzzle.py:223-227 | with the margins of lines 16-17, the square of every box on the board lies wholly inside the 640 × 480 window; `PixelRoundTrip` maps the corner back to the box |
| `Geometry.InBox` | memorypuzzle.py:234-235 | the point test `Rect(left, top, BOXSIZE, BOXSIZE).collidepoint(x, y)`: the half-open square from the box's top-left corner contains the pixel; `BoxAtIffInBox` and `BoxesDisjoint` state what follows from it |
| `Geometry.BoxAtIffInBox` | memorypuzzle.py:230-237 | the closed form names box `c` iff `c` is on the board and its half-open square contains the pixel |
| `Geometry.BoxesDisjoint` | memorypuzzle.py:223-227 | the squares of two different boxes never overlap |
| `Geometry.GetBoxAtPixel` | memorypuzzle.py:230-237 | a returned box contains the pixel; `None` is returned iff no box contains it; the result equals the closed form |
| `Geometry.PixelRoundTrip` | memorypuzzle.py:223-237 | the top-left corner of every box maps back to that box |
| `Geometry.GapsAreNoBox` | memorypuzzle.py:230-237 | pixels in the gap right of or below a box, or in the left or top margin, map to no box |
| `Groups.SplitIntoGroupsOf` | memorypuzzle.py:214-220 | step 0 is the error; a negative step gives no groups; otherwise the groups concatenate to the list, none is empty, each has at most `groupSize` items and all but the last have exactly `groupSize` |
| `Scoring.ScoreAfterMismatch` | memorypuzzle.py:144-148 | on a non-negative score the penalty is 2 with a floor of 0, so the score never goes negative and never rises |
| `Scoring.StreakAfterMatch` | memorypuzzle.py:153-154 | the streak rises by one up to 3; from 0..3 it stays in 1..3 |
| `Scoring.MatchPoints` | memorypuzzle.py:155 | a match is worth five times the streak, or 5 at streak 0; for streaks 0..3 that is 5 to 15 |
| `Scoring.HighScoreAfter` | memorypuzzle.py:376-389 | the stored high score changes iff the new score beats it, and then becomes that score |
| `Game.NothingRevealedIsClosed` | memorypuzzle.py:161-164 | the all-hidden grid of a reset satisfies the found-pairs invariant for any selection |
| `Game.FirstSelectionKeepsPairs` | memorypuzzle.py:128-132 | revealing a first selection keeps every other face-up box paired |
| `Game.MismatchKeepsPairs` | memorypuzzle.py:138-150 | covering both boxes of a mismatch again keeps every face-up box paired |
| `Game.MatchKeepsPairs` | memorypuzzle.py:151-155 | leaving a matched pair face up pairs both of its boxes |
| `Game.LastBoxCompletesPair` | memorypuzzle.py:151-157 | on a paired board with found pairs closed, the last hidden box matches the pending selection and revealing it wins the board |
| `Game.OrphanBlocksWin` | memorypuzzle.py:151-158 | on a paired board with a stranded box, a match with the pending box never reveals the whole board, so `hasWon` stays false |
| `Game.OrphanAfterSelection` | memorypuzzle.py:128-132 | revealing a first selection leaves a stranded box stranded |
| `Game.OrphanAfterMismatch` | memorypuzzle.py:138-150 | covering a mismatched pair again leaves a stranded box stranded |
| `Game.OrphanAfterMatch` | memorypuzzle.py:151-155 | on a paired board a match cannot pair a stranded box, so it stays stranded |
| `Game.Session.constructor` | memorypuzzle.py:60-66 | a new session has a dealt board, nothing revealed, no selection, score 0, streak 0 and the full time, and is consistent |
| `Game.Session.Click` | memorypuzzle.py:123-177 | an off-box or face-up click changes nothing; a first click reveals and remembers the box; a second click evaluates the pair as `ResolvePair` states; `Valid` is kept, and `Consistent` is kept when it held; in a consistent session the second box differs from the first, and the pair that uncovers the last hidden box wins; a stranded session stays stranded and no click wins it |
| `Game.Session.ResolvePair` | memorypuzzle.py:133-177 | from a stranded state the pair never wins and the state stays stranded; mismatch: exactly the two boxes covered again, streak 0, score down by 2 floored at 0; match: streak up by one capped at 3, score up by 5 times the new streak; winning match: score up by 5 times the old streak (5 at 0) and reported, then a fresh board, nothing revealed, score 0, streak 0, full time; the selection is cleared in every case |
| `Game.Session.Timeout` | memorypuzzle.py:94-111 | the end screen gets the current score; the board is dealt again, nothing is revealed, the score is 0 and the time full; streak and pending selection are left as they were |
| `Game.Session.TimeoutDiscardingSelection` | memorypuzzle.py:94-111 | the same reset with the pending selection cleared, which leaves a consistent session |
| `Scenarios.ScoringSequence` | memorypuzzle.py:138-155 | three matches from a new session score 5, 15 and 30; a following mismatch leaves 28 |
| `Scenarios.SelfMatchAfterTimeout` | memorypuzzle.py:94-138 | a box selected before a timeout, clicked again after it, is matched with itself; the session is then no longer consistent and is stranded |

## Findings

| source | as written | input that shows it | evidently intended | confidence | as-written member | corrected member |
|---|---|---|---|---|---|---|
| memorypuzzle.py:94-111 | the timeout reset hides every box but keeps `firstSelection` | select box (0, 0), let the countdown expire, click box (0, 0) again: it is compared with itself, scores as a match, and stays face up without its partner; that session is stranded, and no click wins a stranded session, so the new board cannot be won before the next timeout | a timeout discards the pending selection, as the reset of the reveal grid implies | not executed; the discrepancy is proved for the model | `Game.Session.Timeout`, shown by `Scenarios.SelfMatchAfterTimeout` | `Game.Session.TimeoutDiscardingSelection` |

The as-written `Timeout` keeps only `Valid`. The corrected
`TimeoutDiscardingSelection` also re-establishes `Consistent`. The claims
that a second selection differs from the first and that the last pair wins
are stated under `Consistent`. So they hold for sessions that use the
corrected timeout. `SelfMatchAfterTimeout` shows that the as-written session
ends up `Stranded`. The contract of `Click` says that a stranded session
stays stranded and never wins, so only the next timeout leaves that state.

## Left out

- All drawing: `drawIcon`, `drawBoxCovers`, `revealBoxesAnimation`, `coverBoxesAnimation`, `drawBoard`, `drawHighlightBox`, `makeTextObjs`, `startGameAnimation` and the score-colour choice (lines 78-82). They only draw and return nothing the game uses.
- A frame with mouse movement but no click (lines 124-127). It only draws the highlight and changes no state.
- Event polling and exit: `pygame.event.get`, `checkForKeyPress`, `checkForQuit`, `terminate`. These are input and process control.
- `gameOver`: the end screen, the `highscore.txt` file and the wait for a key. Only its comparison (line 376) is modelled, as `HighScoreAfter`. The final score it receives is returned by `Click` (in `Won`) and by `Timeout`.
- `FPS` and `REVEALSPEED` (lines 6 and 10). They only pace the frame clock and the animations.
- The delays (`pygame.time.wait`) and the frame clock. The countdown drops by a floating-point amount each frame (lines 88-89). So expiry is the `Timeout` event, and the `time` field is only set back to `RUNTIME` by the resets.
- `random.shuffle`: each shuffle is a permutation parameter. `Generator.Shuffled`: no contract says the shuffled list is a permutation of the input as a multiset. The pairing is proved from the index permutation directly.
