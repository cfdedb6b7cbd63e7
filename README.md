# Memory Match: a verified model of the game engine

This project models the engine of the browser tile-matching memory game in
`script.js`. A board of face-down tiles holds pairs of emoji. The player turns
tiles up two at a time. A pair with equal symbols stays up as matched, and a
pair with different symbols is turned back down 600 ms later. The game is won
when every pair is found, and the win screen rates the play by the number of
moves per pair.

The project has six modules:

- `Config` (config.dfy): the three difficulty presets and the twenty-symbol palette.
- `Rating` (rating.dfy): the star ladder of the win screen. Its integer form is
  proved equal to the comparison of the exact ratio `moves / pairs` against
  1.2, 1.5 and 2.
- `Tiles` (tiles.dfy): the `Tile` class and its four transitions. The same
  transitions, as a pure state machine `Step`/`Run` on the two flags, carry the
  lemmas about sequences of transitions.
- `Board` (board.dfy): board generation. The pairing loop, the shuffle (proved
  to be a permutation) and the numbering of the new tiles.
- `Game` (game.dfy): the `GameState` and `MemoryMatchGame` classes. They cover
  click filtering, the scheduled two-tile resolution, the win, the return to
  the title screen, and the session invariant `Consistent` that these keep.
- `Play` (play.dfy): whole runs from a fresh page load. A perfect easy game ends
  won with three stars. A resolution that outlives its session corrupts the
  next session (see Findings).

The 600 ms `setTimeout` callback of `checkForMatch` is a separate method,
`Resolve`. `HandleTileClick` returns the pair that it schedules, and a caller
runs `Resolve` on that pair whenever the callback would fire. This lets the
model interleave other events (quit, restart, clicks) before the callback.

`Math.random` is a parameter. With a random comparator the order that `sort`
produces is left to the JavaScript engine, so the shuffle receives a list of
insertion positions, `choices`: element `i` is inserted at position
`choices[i] % (i + 1)` of the list built so far. Every permutation is reached
by some choice of positions. With no positions the order is kept.

Two facts about the code shape the model:

- The medium preset is 5 x 5 with 12 pairs (script.js:24-29), so
  `rows * cols == 2 * pairs` does not hold for it. `Config.GridCells` states
  what does hold.
- The callback has no guard against a session that was reset or quit while it
  was pending. `Resolve` models it as written, and `ResolveGuarded` is a
  guarded version.

## Model

| member | source | states |
|---|---|---|
| Config.PresetOf | script.js:17-36 | Every preset has at least one pair and at most 20 pairs, the palette size. Its grid has room for all `2 * pairs` tiles. |
| Config.SymbolsDistinct | script.js:39-41 | The palette has 20 symbols and no two are equal. |
| Config.GridCells | script.js:17-36 | Easy and hard grids hold exactly `2 * pairs` tiles. The medium grid (5 x 5, 12 pairs) has one cell more. |
| Rating.RateByRatio | script.js:433-445 | The ladder as written, on the exact ratio: one of the four ratings; three stars exactly when the ratio is at most 1.2, at least two exactly when it is at most 1.5, at least one exactly when it is at most 2. |
| Rating.Rate | script.js:429-445 | The integer ladder gives the same rating as the ladder on the exact ratio `moves / totalPairs` (at most 1.2 gives three stars, at most 1.5 two, at most 2 one, otherwise none, each with its message). It never gives more than three stars. |
| Rating.RatioThresholds | script.js:431-439 | Each threshold comparison on the ratio holds exactly when its cross-multiplied integer form holds: `5m <= 6p`, `2m <= 3p`, `m <= 2p`. |
| Rating.RateMonotone | script.js:429-445 | For a fixed board, more moves never earn more stars. |
| Rating.PerfectGameOutstanding | script.js:429-435 | One move per pair, the fewest possible, earns three stars. |
| Rating.EasyBoardExamples | script.js:433-445 | On 8 pairs: 8 moves give three stars, 12 give two, 16 give one, and 20 give none with "Nice try! Play again to improve!". |
| Tiles.Step | script.js:188-220 | The four transitions on the two flags: only `markMatched` and `reset` change `isMatched`; flip and unflip leave a matched tile as it is; on an unmatched tile flip leaves it face up and unflip face down. |
| Tiles.MatchedStepIsIdentity | script.js:188-209 | Flip, unflip and markMatched leave a matched tile's flags as they are. |
| Tiles.MatchedStaysPut | script.js:188-209 | Any sequence of flips, unflips and match marks without a reset leaves a matched tile exactly as it was, so a matched tile is never turned face down. |
| Tiles.FlipUnflipKeepMatched | script.js:188-201 | Flip and unflip never change `isMatched`. Flipping a face-down unmatched tile shows it. Unflipping a face-up unmatched tile hides it. |
| Tiles.RunKeepsShownIfMatched | script.js:188-220 | If `markMatched` is only applied to face-up tiles, every sequence of transitions keeps "matched implies face up". |
| Tiles.Tile.constructor | script.js:152-158 | A new tile keeps its id and symbol and starts face down and unmatched. |
| Tiles.Tile.Flip | script.js:188-192 | A tile already up or matched is left unchanged. Otherwise it becomes face up and `isMatched` is unchanged. |
| Tiles.Tile.Unflip | script.js:197-201 | A tile that is face down or matched is left unchanged. Otherwise it becomes face down. |
| Tiles.Tile.MarkMatched | script.js:206-209 | The tile becomes matched and its face-up flag is unchanged. |
| Tiles.Tile.Reset | script.js:214-220 | Both flags are cleared. |
| Board.DoubledContents | script.js:284-287 | The doubled list is twice as long. Every symbol occurs twice as often. Positions `2k` and `2k+1` hold symbol `k`. |
| Board.PairSymbols | script.js:284-287 | The loop yields the first `pairs` palette symbols, each twice in a row. Each of them occurs exactly twice, no other symbol occurs, and the length is `2 * pairs`. |
| Board.Shuffle | script.js:290 | The result is a permutation of the input, the same multiset of symbols. With no comparator answers the order is kept. |
| Board.MakeTiles | script.js:293-298 | One new, distinct, face-down and unmatched tile per symbol. Tile `i` carries symbol `i` and id `i`. |
| Game.GameState.constructor | script.js:48-57 | A new session has difficulty medium, no tiles, an empty selection, zero counters, and is neither active nor resolving. |
| Game.GameState.Reset | script.js:62-70 | Tiles, selection and counters are cleared and both flags are false. The difficulty is kept. |
| Game.GameState.MatchedBound | script.js:347-353 | In a consistent session, twice the pair count never exceeds the number of tiles. When it equals the number of tiles, every tile is matched. |
| Game.MemoryMatchGame.constructor | script.js:228-235 | The game starts on the title screen with a fresh session and no timer running. |
| Game.MemoryMatchGame.SelectDifficulty | script.js:251-253 | The selector sets the session's difficulty and nothing else. |
| Game.MemoryMatchGame.CreateTiles | script.js:279-303 | The board has `2 * pairs` distinct new tiles, numbered by position and all face down. Its symbols are a permutation of the doubled first `pairs` palette symbols: each exactly twice, no others. |
| Game.MemoryMatchGame.StartGame | script.js:259-274 | After a reset the board has the preset's `2 * pairs` tiles, each palette symbol exactly twice and ids by position. The selection is empty, the counters are zero, the game is active with the timer running on the game screen, and the session is consistent. |
| Game.MemoryMatchGame.Accepts | script.js:314-315 | The click filter. An accepted tile is one that `flip` turns from face down to face up, and appending it keeps the selection at two tiles or fewer. |
| Game.MemoryMatchGame.HandleTileClick | script.js:308-331 | A click on an inactive game, a face-up or matched tile, during resolution, or with two tiles selected changes nothing. An accepted click turns the tile up and appends it to the selection. When the selection reaches two tiles, it adds one move, sets `isChecking` and schedules that pair. Consistency is preserved. |
| Game.MemoryMatchGame.CheckForMatch | script.js:336-338 | Sets `isChecking` and captures the two selected tiles, in order. |
| Game.MemoryMatchGame.Resolve | script.js:341-365 | Equal symbols: both tiles become matched, the pair count goes up by one, and reaching the preset's pair count wins. Different symbols: both tiles turn down and the count is unchanged. Either way the selection is emptied, resolving stops and moves are unchanged. Consistency is preserved when the session is still resolving exactly this pair. |
| Game.MemoryMatchGame.MatchPair | script.js:345-350 | Both tiles become matched and stay face up. The count goes up by one, the selection is emptied and resolving stops. Consistency is preserved. |
| Game.MemoryMatchGame.UnflipPair | script.js:358-361 | Both tiles are unflipped. The selection is emptied, resolving stops and the count is unchanged. Consistency is preserved. |
| Game.MemoryMatchGame.WinGame | script.js:402-420 | The game becomes inactive, the timer stops, the win screen shows the rating for the moves and pairs, and the board and counters are unchanged. |
| Game.MemoryMatchGame.GoToTitle | script.js:470-474 | The game becomes inactive, the timer stops and the title screen shows. The board, selection and counters are unchanged, so consistency is kept. |
| Game.MemoryMatchGame.ResolveGuarded | script.js:341-365 | A resolution for a pair the session is not resolving changes nothing. Otherwise it does what `Resolve` does. It keeps the session consistent for any pair. |
| Play.StartMediumInOrder | script.js:259-298 | With the shuffle keeping order, the first two tiles of a default-difficulty board are distinct, share a symbol and are face down in a consistent, active session. |
| Play.SelectFirstPair | script.js:308-338 | Two clicks on the first two tiles of a new board select them, set `isChecking` and schedule their resolution. |
| Play.RestartWhileResolving | script.js:242-245 | Quitting while a resolution is pending and starting again gives a consistent new session whose board does not contain the pending tiles. |
| Play.StaleResolution | script.js:341-365 | The pending resolution then fires on the new session. It counts one pair that no tile shows, and it strands the new session's turned-up tile face up outside the selection. Clicks on that tile are rejected, and the session is no longer consistent. |
| Play.StaleResolutionGuarded | script.js:341-365 | The same run with the guarded resolution leaves the new session untouched and consistent. |
| Play.TurnUpPair | script.js:308-366 | Clicking the two tiles of a pair and letting the unguarded resolution, as written, run matches both. It adds one move and one pair, and wins when the pair count reaches the preset's. |
| Play.StartEasyInOrder | script.js:259-303 | With the shuffle keeping order, an easy board has 16 tiles and tiles `2j` and `2j+1` carry palette symbol `j`. |
| Play.PerfectEasyGame | script.js:314-355 | Turning up the 8 easy pairs in order, each resolved by the callback as written, wins the game: inactive, 8 pairs, 8 moves, every tile matched, and three stars. A click after the win is rejected. |

## Left out

- Sound: `AudioManager` (script.js:85-145) and the generator of the sound
  assets only play audio. The model treats every call to them as a no-op.
- DOM work: element creation, the click event dispatch, the CSS class toggles
  in the tile methods, `showScreen`, `updateStats` and the rating HTML. The
  screen on display and the rating written to the win screen are kept as the
  fields `screen` and `shownRating`.
- Time: `getElapsedTime`, `Date.now` and the one-second display interval.
  The timer is modelled only as whether it is running. Elapsed time is
  displayed but does not enter the rating.
- The 600 ms delay: the model does not say when the callback runs, only what
  it does when it runs.
- Board.Shuffle: the distribution of `Math.random` is not modelled. The
  comparator answers are a parameter, and only the permutation property is
  promised.
- Game.MemoryMatchGame.SelectDifficulty: the selector's value is one of the
  three preset keys. A key outside the table, which the page cannot send, is
  not modelled.
- Rating.Rate: the comparisons use exact rationals, while the source compares
  a floating-point quotient with the literals 1.2 and 1.5. Floating-point
  rounding is not modelled.

## Findings

| source | as written | input that shows it | evidently intended | confidence | as-written member | corrected member |
|---|---|---|---|---|---|---|
| script.js:341-365 | The resolution callback acts on the two tiles it captured. It clears `flipped` and `isChecking` and may increment `matched` on whatever session is current when it fires, without checking that this is still the session that scheduled it. | Start a game and turn up the first two tiles, a matching pair. Within 600 ms quit to the title screen, start a new game and turn up one tile. When the callback fires, the new session counts one pair with no matched tile. The turned-up tile stays face up but leaves the selection, so every later click on it is ignored and its pair can never be completed. | A resolution scheduled by an abandoned session has no effect on the current one. | not executed | Play.StaleResolution | Game.MemoryMatchGame.ResolveGuarded |
