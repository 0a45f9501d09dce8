# Chain reaction: a verified model of the rules engine

The game is played on an 8 x 10 board of cells `{owner, orbs}` by player 1 and player 2.
Player 2 can be the computer. A move puts one orb into an empty or own cell.

A cell's capacity is one less than its number of neighbours: 1 in a corner, 2 on an edge, 3
inside. A cell that holds more orbs than its capacity detonates:
- it empties;
- each neighbour receives one orb and passes to the detonating player;
- over-full neighbours are queued for the next wave.

The cascade runs wave by wave from a FIFO queue. It has a per-wave set of cells already
detonated and a ceiling of `ROWS * COLS * 5` waves. A per-player tally of orbs is kept
alongside the board.

After the first two turns, a player with no orbs and no cells loses. The computer has three
tiers:
- easy: random, with a preference for exploding and safe cells;
- medium: a heuristic score, then a pick among the three best;
- hard: one-ply lookahead that simulates each move on a copy of the board and scores the
  result.

The model is in nine modules, one file each:

| file | module | what it holds |
|---|---|---|
| `wrappers.dfy` | `Wrappers` | `Option` |
| `grid.dfy` | `Grid` | cells, capacity, neighbours, board sums, the tally and its consistency with the board |
| `cascade.dfy` | `Cascade` | the placement and the cascade as functions on values: one neighbour's merge, one detonation, one wave, the wave loop with its ceiling |
| `cascade_facts.dfy` | `CascadeFacts` | what the cascade preserves and guarantees |
| `engine.dfy` | `Engine` | `runExplosionSimulation` and the placement, in place on an `array2`, each method proved equal to its function |
| `ranking.dfy` | `Ranking` | scored moves, the descending stable sort, the filter to within a margin of the best |
| `ai.dfy` | `Ai` | valid moves and the three tiers as functions of the board and of the random draws |
| `controller.dfy` | `Controller` | the whole game state (`Match`) and the turn functions: placement and win check, the computer's reply, the click guards |
| `game.dfy` | `Session` | the `Game` class, whose fields are the game's globals, and the methods of the source (`handleCellClick`, `processTurnAction`, `addOrbAndExplode`, `checkWinConditionAndEndGame`, `getAIMove` and its loops) |

Each method in `Engine` and `Session` is proved against a function of `Cascade`, `Ai` or
`Controller`. The methods of `Game` state their effect as `State() == F(old(State()), ...)`,
where `State()` is the class's fields as a `Match` value. The properties are lemmas about
those functions.

`Math.random()` becomes a parameter `draws: seq<real>` of values in [0, 1). They are consumed
in the order the source calls `Math.random()`, with `&&` short-circuits respected.
`Math.floor(u * n)` is written out.

The medium score uses halves, so it is kept as a `real` (`MediumScore`) and also as a doubled
integer (`MediumScore2`); the two are proved equal up to the factor 2. Ranking by the doubled
score orders the moves the same way.

## Model

| member | source | states |
|---|---|---|
| Grid.Capacity | script.js:192 | every capacity is 1, 2 or 3 |
| Grid.Neighbors | script.js:193 | at most four neighbours, each on the board and one step up, down, left or right of the cell |
| Grid.NeighborsAreAdjacentCells | script.js:193 | a cell is a neighbour exactly when it is on the board and one step up, down, left or right |
| Grid.NeighborsInDirectionOrder | script.js:193 | neighbours come in the order up, down, left, right |
| Grid.NeighborCountIsCapacityPlusOne | script.js:192-193 | a cell on the board has capacity + 1 neighbours: 2 in a corner, 3 on an edge, 4 inside |
| Grid.NeighborsDistinct | script.js:193 | neighbours are distinct, on the board, and never the cell itself |
| Grid.EmptyGrid | script.js:143 | the initial board has the board's shape and every cell is empty (no owner, no orbs), so it is well formed and has no over-full cell |
| Grid.Recount | script.js:326-337 | the recount agrees with the board, each player's total being the sum of the orbs in the cells they own; on a well-formed board the two totals together account for every orb on it |
| Cascade.MergeInto | script.js:287-308 | one neighbour's merge changes neither the per-wave set nor the wave count, and only appends to the queue |
| Cascade.Distribute | script.js:285-309 | merging all neighbours changes neither the per-wave set nor the wave count, and only appends to the queue |
| Cascade.Clear | script.js:276-283 | emptying a detonating cell leaves the queue and the wave count as they were |
| Cascade.Detonate | script.js:269-309 | processing a queue entry adds at most that cell to the per-wave set and only appends to the queue |
| Cascade.RunWaveConsumes | script.js:265-310 | the k shifts of a wave consume the first k queue entries, and the rest of the queue stays in front of whatever the wave appends |
| Cascade.Run | script.js:263-310 | the wave count never decreases and ends at most one past the ceiling; the loop ends with an empty queue exactly when it stayed within `MAX_EXPLOSION_STEPS` waves |
| Cascade.RunCascade | script.js:258-316 | `runExplosionSimulation` runs at least one wave, at most `MAX_EXPLOSION_STEPS` + 1, and ends with an empty queue exactly when it did not hit the ceiling |
| Cascade.Place | script.js:242-246 | placing an orb gives the cell to the player with one orb more and leaves every other cell as it was |
| Cascade.AddOrb | script.js:238-254 | off the board nothing changes; when the cell does not go over capacity only that cell changes, to the player's with one orb more |
| CascadeFacts.MergeIntoTally | script.js:291-296 | on a well-formed board whose tally is consistent, one neighbour's merge keeps the tally consistent |
| CascadeFacts.MergeIntoBoard | script.js:291-299 | one neighbour's merge adds exactly one orb to the board and takes cells only from the opponent |
| CascadeFacts.MergeIntoQueue | script.js:303-307 | one neighbour's merge never queues a cell twice, only queues entries of the detonating player, and queues every cell that is now over capacity |
| CascadeFacts.DistributeKeeps | script.js:285-309 | merging all neighbours adds one orb per neighbour and keeps the queue duplicate-free, single-player and complete |
| CascadeFacts.DistributeEffect | script.js:285-299 | after the merges each neighbour is the detonating player's with one orb more, and every other cell is unchanged |
| CascadeFacts.ClearTally | script.js:279-281 | the tally stays consistent when a detonating cell is emptied (the clamp at 0 never bites) |
| CascadeFacts.ClearKeeps | script.js:276-283 | emptying a detonating cell removes exactly its orbs from the board |
| CascadeFacts.DetonateEffect | script.js:272-299 | an entry detonates only when its cell has more orbs than its capacity; then the cell becomes empty and each neighbour becomes the detonating player's with one orb more; nothing else changes |
| CascadeFacts.DetonateKeeps | script.js:269-309 | processing an entry never increases the orbs on the board and keeps the queue duplicate-free and single-player |
| CascadeFacts.WaveStep | script.js:268-309 | one entry of a wave keeps the cascade invariants, and the entries still to come in the wave have not been detonated in this wave |
| CascadeFacts.RunWaveKeeps | script.js:264-310 | a whole wave keeps the cascade invariants: no duplicates, one player, consistent tally, orbs never increase, every over-full cell queued |
| CascadeFacts.RunKeeps | script.js:262-310 | the wave loop keeps the same invariants to its end |
| CascadeFacts.CascadeGuarantees | script.js:258-316 | after `runExplosionSimulation`: orbs never increase, the queue has no duplicates and only the initial player's entries, cells change owner only to the initial player, the tally stays consistent, a cascade that empties its queue from a board stable except at the start leaves a stable board, and it runs at most `MAX_EXPLOSION_STEPS` + 1 waves, ending with a non-empty queue only when it hit the ceiling |
| CascadeFacts.CascadeOnlyConverts | script.js:258-316 | the cascade gives cells only to the player who set it off |
| CascadeFacts.PlaceIsMerge | script.js:241-245 | a legal placement is the same update as one neighbour's merge from an empty queue |
| CascadeFacts.PlaceKeeps | script.js:241-245 | a legal placement gives the cell to the player with one orb more, changes no other cell, adds one orb to the board, and keeps the board well formed and the tally consistent |
| CascadeFacts.AddOrbGuarantees | script.js:238-254 | `addOrbAndExplode` on an empty or own cell keeps the board well formed and the tally consistent, adds at most one orb, converts cells only to the player, and leaves a stable board stable unless the cascade hit its ceiling |
| Engine.MergeNeighbor | script.js:287-308 | the in-place merge of one neighbour leaves the array, tally and queue as `MergeInto` |
| Engine.MergeNeighbors | script.js:286-309 | the loop over the neighbours leaves them as `Distribute` |
| Engine.ProcessEntry | script.js:269-309 | the body of the wave loop for one shifted entry leaves array, tally, queue and per-wave set as `Detonate` |
| Engine.RunOneWave | script.js:264-310 | one wave of shifts leaves them as `RunWave` |
| Engine.PlaceOrb | script.js:241-245 | the in-place placement leaves the array and the tally as `Place` |
| Engine.RunExplosionSimulation | script.js:258-316 | the array and the returned tally end as the board and tally of `RunCascade` |
| Ranking.InsertSorted | script.js:386 | inserting after the elements scoring at least as much keeps a list sorted by descending score |
| Ranking.SortByScore | script.js:386 | the ranking is sorted by descending score and is a permutation of its input |
| Ranking.Within | script.js:419 | the filter keeps exactly the elements scoring at least best - 5, and never more elements than it was given |
| Ranking.WithinKeepsAll | script.js:419 | when every element qualifies the filter returns the list unchanged |
| Ranking.WithinLeads | script.js:418-419 | on the descending ranking the filter keeps a leading run of it, in the ranking's order |
| Ranking.HeadIsBest | script.js:418-419 | the head of a descending ranking scores at least as much as every element: `bestScore` is the best score |
| Ai.Pick | script.js:366 | `xs[Math.floor(u * xs.length)]` is an element of xs |
| Ai.RowMajorEnumeratesBoard | script.js:362 | the row-by-row scan visits every cell of the board once, in increasing order |
| Ai.ValidMoves | script.js:362 | `getValidMoves(p)` holds exactly the cells that are empty or p's, each once, in row-major order |
| Ai.ExplodingMoves | script.js:367 | `explodingMoves` holds exactly the valid moves whose cell would go over capacity, in order |
| Ai.SafeMoves | script.js:368 | `safeMoves` holds exactly the valid moves with no neighbour of player 1 about to go over capacity, in order |
| Ai.EasyMove | script.js:365-371 | the easy move is a valid move; exploding when the draws choose the exploding branch; safe when they reach the safe branch and there is a safe move |
| Ai.MediumScore2 | script.js:377-383 | the integer medium score is exactly twice the score the source computes |
| Ai.MediumScored | script.js:375-385 | the scored list holds the valid moves in order, each with its medium score |
| Ai.RankingHoldsScored | script.js:386-418 | sorting a list that pairs each move with its score keeps exactly those pairs: every move appears with its score, and nothing else does |
| Ai.MediumRanking | script.js:375-386 | the medium ranking is sorted by descending score, is a permutation of the scored list, and holds every valid move with its score and nothing else |
| Ai.MediumPick | script.js:387-392 | the medium pick is among the three best ranked, and is the best below 0.7 |
| Ai.MediumMove | script.js:373-392 | the medium move is a valid move; unless the 15% random branch is taken, one of the three best ranked; and when the second draw is below 0.7, a valid move with the best score |
| Ai.FirstDanger | script.js:411 | the index where the scan breaks: no danger before it, and danger at it unless the scan ran to the end |
| Ai.ScanThreatsMeaning | script.js:411 | the scan reports danger exactly when some scanned cell is a danger, and counts the critical cells before the first danger |
| Ai.ScanBoardMeaning | script.js:411 | over the whole board: danger exactly when some cell is a danger, and the critical cells before the first danger counted |
| Ai.HardScoreMeaning | script.js:406-412 | the hard score is `p2Orbs - p1Orbs` on the simulated board, plus 1000 exactly when player 1 has no orbs and the computer has some, minus 500 once exactly when some player-1 cell is at or above capacity, plus 2 per critical computer cell before the first such cell |
| Ai.SimulationNeverHelpsP1 | script.js:399-408 | on the simulated board player 1 never has more orbs than before |
| Ai.HardScored | script.js:396-414 | the scored list holds the valid moves in order, each with its hard score |
| Ai.HardRanking | script.js:396-418 | the hard ranking is sorted by descending score, is a permutation of the scored list, and holds every valid move with its score and nothing else |
| Ai.HardPick | script.js:418-424 | the hard pick is a ranked move, and within 5 of the best unless the 5% draw took the runner-up; that draw takes the runner-up whenever there is one, and without it and without the 15% random branch among several top moves the pick is the best |
| Ai.HardMove | script.js:394-426 | the hard move is a valid move, and unless the 5% draw took the runner-up its hard score is within 5 of every valid move's hard score |
| Ai.AIMove | script.js:363-429 | `getAIMove` returns a move exactly when the game is against the computer and it has a valid move, and the move is valid |
| Controller.InitialMatch | script.js:142-145 | the new game: every cell empty, both tallies 0, player 1 to move, no flags set, turn 0, with the chosen mode and difficulty; the board is stable and the tally consistent |
| Controller.InitialMoves | script.js:362 | on the new board every cell is a valid move, in row-major order |
| Controller.CheckWin | script.js:324-353 | the win check changes only the tally and `gameOver` |
| Controller.CheckWinMeaning | script.js:324-348 | returns true at once when the game is over; otherwise the tally becomes the recount, and the game ends exactly when the turn count is above 1 and exactly one player has orbs or cells |
| Controller.CheckWinIdempotent | script.js:324-348 | checking twice gives the same state and verdict as checking once |
| Controller.ComputerCanMoveAfterCheck | script.js:339-346 | once the turn count is above 1, a check that does not end the game leaves the computer a valid move |
| Controller.Play | script.js:207-213 | placing and checking sets `turnInProgress`, sets `aiThinking` exactly for the computer's move in pve, keeps the tally consistent, and `gameOver` equals the result |
| Controller.ComputerTurn | script.js:206-234 | a turn played with the computer to move adds no turn and, once played, clears both flags |
| Controller.ProcessTurnCount | script.js:206-234 | a turn adds at most one to the counter (the computer's reply), none in a two-player game |
| Controller.ComputerRepliesCount | script.js:216-230 | the computer's reply adds at most one turn |
| Controller.RespondCount | script.js:221-229 | acting on any chosen move adds at most one turn |
| Controller.ClickTurnCount | script.js:197-204 | a click changes nothing exactly when a guard rejects it; an accepted click adds exactly one turn in a two-player game, and one or two against the computer |
| Controller.ClickRejected | script.js:198-201 | a click the guards reject leaves the state unchanged |
| Controller.ClickAccepted | script.js:202-203 | an accepted click is a turn for the current player with the counter increased by one |
| Controller.ProcessTurnFlags | script.js:206-234 | after a turn `aiThinking` is clear and the tally consistent; `turnInProgress` stays set only when the computer had no valid move, which needs turn count 1 or less |
| Controller.ComputerRepliesFlags | script.js:216-230 | after the computer's reply `aiThinking` is clear and the tally consistent; `turnInProgress` stays set only when the computer had no valid move, leaving board and counter as they were |
| Controller.RespondFlags | script.js:221-230 | the same for any chosen move that is valid, or absent exactly when there is no valid move |
| Controller.ProcessTurnNextPlayer | script.js:206-234 | unless the game ended, after a turn player 1 is to move against the computer, and the other player in a two-player game |
| Controller.RespondNextPlayer | script.js:221-230 | unless the game ended, after the computer acts on any chosen move player 1 is to move |
| Controller.ClickNextPlayer | script.js:197-234 | unless the game ended, after an accepted click player 1 is to move against the computer, and the other player in a two-player game |
| Controller.PlayLeavesComputerAMove | script.js:206-213 | after turn 1, a move that does not end the game leaves the computer a valid move |
| Controller.ClickNeverStallsAfterFirstTurn | script.js:197-234 | from turn 1 on, an accepted click leaves neither flag set |
| Controller.FirstClickNeverStalls | script.js:197-234 | the first click of a new game leaves neither flag set, whatever the mode |
| Controller.ProcessTurnKeepsBoard | script.js:206-234 | a turn on an empty or own cell keeps the board well formed |
| Controller.ComputerRepliesKeepBoard | script.js:216-230 | the computer's reply keeps the board well formed |
| Controller.RespondKeepsBoard | script.js:221-229 | acting on any chosen move keeps the board well formed |
| Controller.ClickKeepsBoard | script.js:197-204 | a click keeps the board well formed |
| Session.CloneBoard | script.js:399 | the copy is a fresh array with the same cells |
| Session.ScanRow | script.js:411 | one row of the threat scan continues the row-major scan of the rest of the board |
| Session.ScanForThreats | script.js:411 | the nested loop with its `break` returns the danger flag and critical count of `ScanThreats` over the board |
| Session.ValidMovesInRow | script.js:362 | one row of `getValidMoves` extends the moves of the earlier rows |
| Session.GetValidMoves | script.js:362 | the nested loop returns `ValidMoves` |
| Session.CountRow | script.js:328-334 | one row's orbs and cells of each player |
| Session.CountBoard | script.js:326-335 | the nested loop returns the recount and each player's number of cells |
| Session.SimulatedBoard | script.js:399-405 | a fresh copy with the computer's orb placed and the cascade run: the board of `SimulatedGrid`; the live board is untouched |
| Session.SimulateMove | script.js:397-413 | the scored move is the hard score of the move |
| Session.ScoreMedium | script.js:375-385 | the loop returns `MediumScored` |
| Session.ScoreHard | script.js:396-414 | the loop returns `HardScored` |
| Session.EasyChoice | script.js:365-371 | returns `EasyMove` |
| Session.MediumChoice | script.js:373-392 | returns `MediumMove` |
| Session.HardChoice | script.js:394-426 | returns `HardMove` |
| Session.GetAIMove | script.js:363-429 | returns `AIMove` |
| Session.Game.constructor | script.js:142-145 | the new game's state is `InitialMatch` |
| Session.Game.SwitchPlayer | script.js:320 | only the current player changes, to the other one |
| Session.Game.SetFlags | script.js:208 | only `turnInProgress` and `aiThinking` change |
| Session.Game.CountTurn | script.js:202 | only the turn counter changes, by one |
| Session.Game.AddOrbAndExplode | script.js:238-254 | board and tally become those of `AddOrb`; nothing else changes |
| Session.Game.CheckWinConditionAndEndGame | script.js:324-353 | state and result are those of `CheckWin` |
| Session.Game.PlayMove | script.js:207-213 | state and result are those of `Play` |
| Session.Game.ProcessTurnAction | script.js:206-234 | the state becomes `ProcessTurn` of the old state |
| Session.Game.ComputerReply | script.js:216-230 | the state becomes `ComputerReplies` of the old state |
| Session.Game.ChooseComputerMove | script.js:218-221 | sets `aiThinking` only, and the move is `AIMove` of the board |
| Session.Game.RespondTo | script.js:221-229 | the state becomes `Respond` of the old state and the chosen move |
| Session.Game.PlayComputerMove | script.js:223-224 | the state becomes the computer's turn, counted, of the old state |
| Session.Game.IsPlayable | script.js:221-222 | the target is on the board and empty or the player's |
| Session.Game.AcceptsClick | script.js:198-201 | the click passes the guards exactly when `Rejected` does not hold |
| Session.Game.HandleCellClick | script.js:197-204 | the state becomes `Click` of the old state |

## Left out

- The page: DOM lookups, building the board, cell views, status text, the orb display, the dominance bar, the board size, the win popup and the game-over message.
- Sound, the colour theme and `localStorage`.
- `console` logging.
- The delays and the asynchrony: `await`, `setTimeout`, and the `Promise` and `Promise.all` fan-out of the hard tier. The model runs the same steps one after another.
- The `updateUI` flag of `runExplosionSimulation`. It switches only sounds, cell views and the pause between waves, so the model has a single version.
- The re-check of `gameOver` after the computer's thinking delay, and its `else` branch (script.js:220, 231). Nothing can end the game during the delay in a sequential model.
- Probabilities: each `Math.random()` is a draw given as a parameter. The contracts state what holds for every draw, not how likely each choice is.
- The hard tier's `catch` fallback (script.js:425). The model does not raise there.
- `getAIMove`'s last line (script.js:428), a random move when the difficulty is none of the three. `Difficulty` has exactly three values.
- The hard tier's `scoredMoves.length === 0` branch (script.js:417). It cannot be reached, because `validMoves` is non-empty there and every valid move is scored.
- Ranking.SortByScore: stability (equal scores keep their order) follows from the insertion rule but is not proved; the contract states sortedness and permutation only.
- Ai.MediumRanking: ranks by the doubled integer score, which orders moves exactly as the real score does. Ties keep the same order.
- CascadeFacts.PlaceKeeps and CascadeFacts.AddOrbGuarantees: assume the target cell is empty or the player's, as every caller's guard ensures (script.js:200, 224-226, 362). Nothing is claimed for a placement on the opponent's cell.
- Controller.ProcessTurnFlags: the computer's error fallback (script.js:229-230) hands the turn back without clearing `turnInProgress`, and the model keeps it that way. The lemma shows this happens only when the computer has no valid move, which is possible only while the turn count is at most 1. Controller.FirstClickNeverStalls and Controller.ClickNeverStallsAfterFirstTurn show that an accepted click never leaves a flag set.
