# Battleship ML simulation viewer — a Dafny model

This project models the logic of the battleship AI viewer, a React front-end. The viewer does three things:

- It replays recorded games, in which several agents (heuristic players, classic machine-learning models, reinforcement learners and language models) each shoot at their own copy of a hidden fleet. The replay shows each agent's board turn by turn.
- It replays the reasoning transcripts of the language-model agents, revealing the text in chunks like a typing animation.
- It lets a human deploy a fleet and play against a server-side agent.

The model lifts that logic out of the components and states it in Dafny. One module per source file:

- `Playback` (`src/App.js`): the playback position `(game, turn)` over the loaded games, with its play flag and speed. The `Player` class holds the fields the handlers update. The navigation rules are functions on `Position`, and `Offset` numbers every in-bounds position in playing order. The lemmas prove that a step forward or backward moves one place along that numbering, that each step undoes the other, and that a tick is a step forward except at the very end.
- `TypingReveal` (`src/components/ReasoningViewer.js`): `generateChunkBoundaries` and `ResponseDisplay`.
  - The chunk boundaries start at 0, end at the text's length and strictly increase.
  - Each gap lies between `min(3, rest)` and the drawn chunk size plus 6.
  - Each cut snaps to just after the first break character within five characters.
  - These hold for every sequence of random draws in the code's ranges.
- `ReasoningViewer` (`src/components/ReasoningViewer.js`): which agent's transcript is shown (the selected agent, or a fixed-priority fallback) and what the chat window holds.
- `BoardTimeline`: the "frozen on completion" board lookup and hit counting shared by `AgentCategory.js`, `FloatingBoardPanel.js` and `StatsPanel.js`.
- `AgentCategory`, `FloatingBoardPanel`, `LlmAgentSelector`, `GameViewer`: the agent filters, the category partition and the board cards.
- `StatsPanel`: the integer accumulation of `calculateStats` (as a method over a map and its key order, proved against a specification by entry lists) and the focus-mode board.
- `ShipPlacement` (`src/components/ShipPlacement.js`): the fleet deployment screen. The `Deployment` class keeps the grid, the placed-ship map and its insertion order.
  - It keeps an invariant that the grid and the ship map agree and that no two ships overlap.
  - `handleConfirm` returns exactly the cells that hold each ship.
- `GameClient` (`src/components/GameClient.js`): the client's pure and loop-based helpers:
  - the opponent-name heuristics;
  - the race progress board;
  - the shot labels `A0`..`J9` and their decoding;
  - the player board and ship status after an AI shot;
  - the race counters;
  - the fleet-afloat matching, which is a multiset intersection;
  - the initial player board.
- `Games`: the shape of a recorded game file.
  - A JavaScript object of agent records is a sequence of `(name, record)` entries in key order.
  - A missing string, board history or count is modelled by its falsy form (`""`, `[]`, `0`), since its uses go through `|| ''`, `|| []` or `|| 0`.
  - A missing `move_metadata` is kept apart from an empty one (`None` against `Some([])`). `move_metadata?.length > currentTurn` is false for a missing list at every turn, but true for an empty list at turn -1.

Two places where the code allows more than its controls offer:

- `Playback.Player.Seek` stores the requested turn unclamped, as `onTurnChange={setCurrentTurn}` does (src/App.js:176). Only the slider's bounds, 0 to `maxTurns - 1` (src/components/Controls.js:66-67), keep a seek in range.
- The step handlers can leave the turn at -1 when the previous game has no turns. `Playback.Backward` states this case.

## Model

| member | source | states |
|---|---|---|
| Games.Lookup | src/components/AgentCategory.js:22 | `gameData[name]` is present exactly when the name is a key, and the record returned is the one stored under that key |
| Games.MoveAt | src/components/FloatingBoardPanel.js:23 | the turn's transcript entry exists exactly when `move_metadata` is present and the turn indexes it, and is that entry; the reasoning viewer reads the same entry |
| Games.LookupEntry | src/components/AgentCategory.js:22 | with distinct keys, looking up an entry's name returns that entry's record |
| BoardTimeline.CurrentBoard | src/components/AgentCategory.js:23-24 | the shown board is the turn's snapshot while the turn is inside the history, the last snapshot from the last turn on, and empty when there is no history or the turn is negative |
| BoardTimeline.FrozenOnCompletion | src/components/AgentCategory.js:24-32 | once an agent has finished, every later turn shows its last snapshot |
| BoardTimeline.RowCountOccurrences | src/components/AgentCategory.js:28-30 | a row's count of marked cells is the number of occurrences of the mark, or the sum for two marks |
| BoardTimeline.CountMarksOccurrences | src/components/FloatingBoardPanel.js:16-18 | the board's hit count is the number of occurrences of 'h' (and of 's' where both count) among all its cells |
| BoardTimeline.Card | src/components/AgentCategory.js:22-42 | a card shows the frozen board, `min(turn + 1, turns)` turns, the marked cells as hits, and `isFinished` exactly when the history is non-empty and the turn has reached its last index |
| BoardTimeline.HitCardFacts | src/components/AgentCategory.js:28-32 | an 'h'-counting card shows as hits the number of 'h' cells on its board, and a finished card shows the last snapshot |
| AgentCategory.ActiveAgents | src/components/AgentCategory.js:7 | the row keeps exactly the listed agents present in the game, in list order |
| AgentCategory.CategoryRow | src/components/AgentCategory.js:7-44 | the row is null exactly when no listed agent is present; otherwise it has one 'h'-counting card per present agent, in list order |
| FloatingBoardPanel.NonEmpty | src/components/FloatingBoardPanel.js:24-25 | a move or result shows exactly when it is non-empty, and shows itself |
| FloatingBoardPanel.FloatingPanel | src/components/FloatingBoardPanel.js:5-42 | the panel exists exactly when the name is given and the game holds the agent; it then shows the 'h'/'s'-counting card, and the turn's move and result exactly when present and non-empty |
| FloatingBoardPanel.PanelHits | src/components/FloatingBoardPanel.js:16-20 | the panel's hits are the number of 'h' plus 's' cells on the shown board, and a finished panel shows the last snapshot |
| LlmAgentSelector.AvailableAgents | src/components/LlmAgentSelector.js:6 | an agent is available exactly when it is listed and has at least one recorded move; list order is kept |
| LlmAgentSelector.AgentSelector | src/components/LlmAgentSelector.js:6-37 | the "no agents" note shows exactly when no listed agent has moves; otherwise there is one tab per available agent, in order, active exactly when it is the selected one |
| LlmAgentSelector.ActiveCountIsOccurrences | src/components/LlmAgentSelector.js:21 | the number of active tabs is the number of tabs named like the selected agent |
| LlmAgentSelector.OneActiveTab | src/components/LlmAgentSelector.js:20-21 | with distinct agent names, exactly one tab is active when the selected agent is available, and none otherwise |
| LlmAgentSelector.SubseqOfDistinct | src/components/LlmAgentSelector.js:6 | filtering a list of distinct names keeps them distinct |
| GameViewer.FixedCategoriesDisjoint | src/components/GameViewer.js:17-38 | no agent name is listed by two fixed categories |
| GameViewer.KnownAgents | src/components/GameViewer.js:42-45 | the known set holds exactly the names listed by the four fixed categories |
| GameViewer.UnknownAgents | src/components/GameViewer.js:41-48 | the language-model category holds exactly the game's agents that no fixed category lists, in key order |
| GameViewer.Categorize | src/components/GameViewer.js:17-48 | the five categories are the four fixed ones followed by the language-model category of unknown agents |
| GameViewer.Partition | src/components/GameViewer.js:17-48 | every agent of the game is in exactly one category, which is the language-model one exactly when no fixed category lists it |
| GameViewer.ActiveCategories | src/components/GameViewer.js:51-53 | a category is kept exactly when one of its agents is in the game, and the order is kept |
| GameViewer.LlmCategoryKept | src/components/GameViewer.js:48-53 | the language-model category is shown exactly when the game has an agent no fixed category lists |
| GameViewer.ViewCategories | src/components/GameViewer.js:6-53 | without game data the loading note shows; otherwise the non-empty categories of the five, in order |
| Playback.MaxTurns | src/App.js:87-92 | the result is an upper bound on every agent's history length and equals one of them, so it is their maximum |
| Playback.Backward | src/App.js:127-135 | stepping back from turn 0 into a game with no turns gives turn -1 |
| Playback.TickIsStepForward | src/App.js:60-85 | a scheduled tick moves like a step forward and keeps playing, except at the last turn of the last game, where it stays put and stops |
| Playback.OffsetInRange | src/App.js:114-135 | every in-bounds position has a place in playing order between 0 and the total number of turns |
| Playback.OffsetInjective | src/App.js:114-135 | distinct in-bounds positions have distinct places in playing order |
| Playback.ForwardAdvances | src/App.js:114-125 | with every game non-empty, a step forward stays in bounds and moves to the next place in playing order, and is a no-op exactly at the last place |
| Playback.ForwardAcrossGames | src/App.js:121-124 | from the last turn of a game that is not the last, a step forward lands on turn 0 of the next game, one place further |
| Playback.BackwardRetreats | src/App.js:127-135 | with every game non-empty, a step back stays in bounds and moves to the previous place, and is a no-op exactly at turn 0 of game 0 |
| Playback.BackwardUndoesForward | src/App.js:114-135 | a step back undoes a step forward everywhere except at the very end |
| Playback.ForwardUndoesBackward | src/App.js:114-135 | a step forward undoes a step back everywhere except at turn 0 of game 0 |
| Playback.BoundaryRoundTrip | src/App.js:114-135 | from turn 0 of game k + 1 a step back lands on the last turn of game k, and a step forward from there returns |
| Playback.ForwardNAdvances | src/App.js:114-125 | n steps forward move n places in playing order as long as the end is not passed |
| Playback.StepThroughGame | src/App.js:114-125 | `maxTurns` steps from turn 0 of a game land on turn 0 of the next game |
| Playback.SkipKeepsInBounds | src/App.js:98-112 | with every game non-empty, skipping to the next or previous game keeps the position in bounds |
| Playback.TickKeepsInBounds | src/App.js:60-85 | with every game non-empty, a tick keeps the position in bounds |
| Playback.Player.constructor | src/App.js:11-14 | playback starts at game 0, turn 0, paused, at 500 ms per tick |
| Playback.Player.CurrentMaxTurns | src/App.js:137-138 | the controls show the current game's maximum turns, or 0 when there is no game |
| Playback.Player.PlayPause | src/App.js:94-96 | the play flag is negated and nothing else changes |
| Playback.Player.SetSpeed | src/App.js:175 | the speed is replaced and nothing else changes |
| Playback.Player.Seek | src/App.js:176 | the turn is replaced, unclamped, and nothing else changes |
| Playback.Player.SkipToNextGame | src/App.js:98-104 | the next game at turn 0, paused; at the last game nothing changes, not even the play flag |
| Playback.Player.SkipToPrevGame | src/App.js:106-112 | the previous game at turn 0, paused; at the first game nothing changes |
| Playback.Player.StepForward | src/App.js:114-125 | the position becomes `Forward` of the old one, with play flag and speed unchanged |
| Playback.Player.StepBackward | src/App.js:127-135 | the position becomes `Backward` of the old one, with play flag and speed unchanged |
| Playback.Player.Tick | src/App.js:60-85 | position and play flag become `TickStep` of the old ones, which does nothing unless playing over an existing game |
| TypingReveal.SnapFirstBreak | src/components/ReasoningViewer.js:30-36 | the search returns just past the first break in the window, or the tentative cut when the window has no break |
| TypingReveal.Snap | src/components/ReasoningViewer.js:27-36 | a snapped cut is at least the tentative cut and at most six characters past it, within the text |
| TypingReveal.SnapBounds | src/components/ReasoningViewer.js:28-33 | the search result from any point of the window stays between the cut and six characters past it |
| TypingReveal.NextBoundary | src/components/ReasoningViewer.js:20-38 | the next boundary is past the current one and within the text, at least `min(3, rest)` and at most the chunk size plus 6 further on |
| TypingReveal.BoundariesFrom | src/components/ReasoningViewer.js:19-40 | the boundaries after a position strictly increase, stay within the text, end at its length, and are empty only at the end of the text |
| TypingReveal.ChunkBoundaries | src/components/ReasoningViewer.js:7-43 | boundaries start at 0, end at the text's length, strictly increase and stay within the text; an empty text gives exactly `[0]` |
| TypingReveal.BoundariesStep | src/components/ReasoningViewer.js:19-40 | each boundary is the next boundary of the one before it, chunk i using the i-th draws |
| TypingReveal.ChunkGaps | src/components/ReasoningViewer.js:21-39 | consecutive boundaries differ by at least `min(3, rest)` and at most the drawn chunk size plus 6, the generator being seeded from the text's length only |
| TypingReveal.BoundariesUnfold | src/components/ReasoningViewer.js:38-39 | one round of the outer loop moves one boundary from the remaining ones to the pushed ones |
| TypingReveal.FindSnapPoint | src/components/ReasoningViewer.js:27-36 | the inner `for` loop with its `break` returns the snapped cut |
| TypingReveal.NextCut | src/components/ReasoningViewer.js:21-36 | one round of the outer loop computes the next boundary from the chunk's draws |
| TypingReveal.GenerateChunkBoundaries | src/components/ReasoningViewer.js:7-43 | the loop returns exactly the chunk boundaries of the text |
| TypingReveal.ResponseDisplay | src/components/ReasoningViewer.js:45-62 | the shown text is the prefix up to boundary `min(chunkIndex, n - 1)`, the cursor shows exactly while `chunkIndex < n - 1`, and without the cursor the whole text shows |
| TypingReveal.RevealIsMonotone | src/components/ReasoningViewer.js:50-52 | a later chunk index shows an extension of the earlier text |
| TypingReveal.RevealProgresses | src/components/ReasoningViewer.js:50-54 | while the cursor shows, the next chunk index reveals strictly more text |
| ReasoningViewer.FirstWithTranscript | src/components/ReasoningViewer.js:73 | the agent found is a candidate whose present `move_metadata` is longer than the turn, and none is found exactly when no candidate has one |
| ReasoningViewer.FirstWithTranscriptIsFirst | src/components/ReasoningViewer.js:73 | no candidate before the one found has a move for the turn |
| ReasoningViewer.ActiveAgent | src/components/ReasoningViewer.js:69-73 | the selected agent wins when its present `move_metadata` is longer than the turn; otherwise it is a fallback agent meeting the same test; none exactly when neither does |
| ReasoningViewer.MissingTranscriptNeverShown | src/components/ReasoningViewer.js:71-73 | an agent without `move_metadata` is never the active agent, at any turn including -1, while a selected agent with an empty list is active at turn -1 |
| ReasoningViewer.FallbackPriority | src/components/ReasoningViewer.js:70-73 | without a usable selected agent, "Llama-4-Scout" is chosen whenever it has a move for the turn |
| ReasoningViewer.View | src/components/ReasoningViewer.js:64-152 | loading without game data; the "no LLM data" note for turn + 1 exactly when no agent is active; otherwise the prompt or its placeholder, the response from `chunkIndex - 1` exactly when `chunkIndex > 0` and there is reasoning, and the move exactly when `chunkIndex` exceeds the number of boundaries |
| ReasoningViewer.MoveAfterFullResponse | src/components/ReasoningViewer.js:127-148 | the move line only appears under a completely typed response, without the cursor |
| ReasoningViewer.ChatHasMove | src/components/ReasoningViewer.js:71-88 | for a non-negative turn, a shown chat always belongs to an agent that has an entry for the turn |
| ShipPlacement.Toggle | src/components/ShipPlacement.js:85 | the rotate button always changes the orientation |
| ShipPlacement.ToggleTwice | src/components/ShipPlacement.js:85 | two presses restore the orientation |
| ShipPlacement.IdInjective | src/components/ShipPlacement.js:4-10 | each ship id names one ship, so a cell's id identifies its ship |
| ShipPlacement.FootprintCell | src/components/ShipPlacement.js:49-53 | the i-th cell of a ship is in its first i + 1 cells and not in its first i |
| ShipPlacement.NoOverlap | src/components/ShipPlacement.js:29-60 | while grid and ship map agree, no two placed ships cover a common cell |
| ShipPlacement.FootprintInGrid | src/components/ShipPlacement.js:49-53 | each of a placed ship's cells is inside the grid and holds its id |
| ShipPlacement.CanPlaceShip | src/components/ShipPlacement.js:18-27 | placement is allowed exactly when the ship does not overrun the grid and each of its cells is empty |
| ShipPlacement.ClearShip | src/components/ShipPlacement.js:37-44 | the old cells of the moved ship become empty and every other cell is unchanged |
| ShipPlacement.StampShip | src/components/ShipPlacement.js:48-53 | the `size` cells from `(r, c)` along the orientation get the ship's id and every other cell is unchanged |
| ShipPlacement.Coords | src/components/ShipPlacement.js:64-67 | the coordinate loop yields the ship's footprint, cell by cell |
| ShipPlacement.Footprint | src/components/ShipPlacement.js:64-67 | a ship's footprint has `size` cells, the i-th one i steps along its orientation |
| ShipPlacement.FootprintMembers | src/components/ShipPlacement.js:64-67 | a cell is in a ship's footprint exactly when the placement covers it |
| ShipPlacement.AllKindsCount | src/components/ShipPlacement.js:73 | a set of ship kinds has five members exactly when it holds every kind |
| ShipPlacement.Deployment.constructor | src/components/ShipPlacement.js:13-16 | an empty grid, nothing placed or selected, horizontal orientation |
| ShipPlacement.Deployment.SelectShip | src/components/ShipPlacement.js:100 | the selection becomes the ship and nothing else changes |
| ShipPlacement.Deployment.ToggleOrientation | src/components/ShipPlacement.js:85 | the orientation flips and nothing else changes |
| ShipPlacement.Deployment.AllPlaced | src/components/ShipPlacement.js:73 | all are placed exactly when every ship kind is in the placed map |
| ShipPlacement.Deployment.PlaceShip | src/components/ShipPlacement.js:29-60 | without a selection, or when the ship cannot go there, nothing changes; otherwise the ship's entry becomes its new placement, it is added to the order if new, and the grid stays consistent with the map |
| ShipPlacement.Deployment.Confirm | src/components/ShipPlacement.js:62-71 | one entry per placed ship in first-placement order, with its name, its size, and its cells in order from the start along the orientation (the footprint of its placement), which are exactly the grid cells holding it, all inside the grid |
| ShipPlacement.MoveShip | src/components/ShipPlacement.js:29-60 | the grid, map and order stay consistent; a rejected move changes nothing; an accepted one records the new placement |
| ShipPlacement.DeployAll | src/components/ShipPlacement.js:63-69 | each entry is the placed ship's name, size and footprint, in order |
| ShipPlacement.FleetMatchesBoard | src/components/ShipPlacement.js:62-69 | the confirmed ships' cells are exactly the grid cells holding them, and all lie in the grid |
| ShipPlacement.ClearRemovesShip | src/components/ShipPlacement.js:37-44 | clearing a placed ship's footprint empties exactly the cells that held it |
| ShipPlacement.NothingToClear | src/components/ShipPlacement.js:37 | a ship that is not placed holds no cell |
| ShipPlacement.CanPlaceOnCleared | src/components/ShipPlacement.js:46 | checking the cleared grid for free cells is checking the original grid for cells that are free or hold the moved ship itself |
| ShipPlacement.PlaceKeepsConsistent | src/components/ShipPlacement.js:48-59 | clearing the moved ship and writing it where it may go keeps grid and ship map in agreement |
| GameClient.Lower | src/components/GameClient.js:10 | lowercasing keeps the length and lowercases each ASCII letter |
| GameClient.IsLlmAgent | src/components/GameClient.js:8-12 | a name is a language model's exactly when its lowercase form contains one of the six markers; an empty name never is |
| GameClient.LowerIdempotent | src/components/GameClient.js:10 | lowercasing twice is lowercasing once |
| GameClient.IsLlmAgentIgnoresCase | src/components/GameClient.js:10-11 | the heuristic gives the same answer for a name and its lowercase form |
| GameClient.ChatGptImpliesGpt | src/components/GameClient.js:11 | a name containing "chatgpt" already contains "gpt", so the last marker adds nothing |
| GameClient.FormatAgentName | src/components/GameClient.js:15-21 | the two server ids get their display names and every other name is kept |
| GameClient.MarkedByPrefix | src/components/GameClient.js:11 | a name whose lowercase form starts with a marker is a language model's |
| GameClient.MappedIdsAreLlm | src/components/GameClient.js:15-21 | both mapped server ids are detected as language models |
| GameClient.DisplayNamesAreLlm | src/components/GameClient.js:15-21 | both display names are detected as language models |
| GameClient.ProgressBoard | src/components/GameClient.js:24-58 | the progress board is 10 by 10 and each cell is its health, miss or empty mark |
| GameClient.GenerateProgressBoard | src/components/GameClient.js:24-58 | the nested loops build exactly the progress board: 17 health cells (row 9, then columns 0-6 of row 8) marked 'X' below the hit count and '_' otherwise, misses as 'O' in row-major order over rows 0-5, '.' elsewhere |
| GameClient.PrefixRowCount | src/components/GameClient.js:47-55 | a row whose marked cells are its first k has `clamp(k, 0, length)` of them |
| GameClient.HitCountFrom | src/components/GameClient.js:31-43 | the hits and health cells drawn in the rows from j down to 9 |
| GameClient.MissCountFrom | src/components/GameClient.js:47-55 | the misses drawn in the rows from j down to 9 |
| GameClient.ProgressCounts | src/components/GameClient.js:24-58 | the board shows `clamp(aiHits, 0, 17)` hits among exactly 17 health cells and `clamp(aiMisses, 0, 60)` misses |
| GameClient.NatToDecimal | src/components/GameClient.js:258 | a row number prints as a non-empty string of digits |
| GameClient.LeadingDigits | src/components/GameClient.js:291 | the leading run of digits is maximal |
| GameClient.ParseInt | src/components/GameClient.js:291 | `parseInt` is NaN exactly when the string does not start with a digit |
| GameClient.ShotLabel | src/components/GameClient.js:257-258 | a label starts with the column letter and has at least two characters |
| GameClient.DecodeLabel | src/components/GameClient.js:289-291 | a decoded move has column `charCode - 65` and a non-negative row |
| GameClient.DecimalValue | src/components/GameClient.js:258 | the printed row number reads back as itself |
| GameClient.AllDigitsLeading | src/components/GameClient.js:291 | a string of digits is all leading digits |
| GameClient.LabelRoundTrip | src/components/GameClient.js:289-291 | decoding the label of any row and any column A-J gives the cell back |
| GameClient.LabelInjective | src/components/GameClient.js:257-258 | distinct cells have distinct labels |
| GameClient.CellKeyIsShotLabel | src/components/GameClient.js:218 | a ship cell's key is the label an AI shot at that cell carries |
| GameClient.ApplyAiShot | src/components/GameClient.js:288-300 | after an AI shot the target cell is 'X' on HIT or SUNK and 'O' otherwise, and every other cell is unchanged |
| GameClient.ShotMarksItsCell | src/components/GameClient.js:292-300 | a shot at a cell's label marks that cell and no other |
| GameClient.UpdateShips | src/components/GameClient.js:303-315 | on a hit, exactly the ships whose cells hold the move gain one hit and are sunk once hits reach size; every other ship, and every ship on a miss, is unchanged |
| GameClient.UpdateKeepsSunkAgrees | src/components/GameClient.js:303-315 | a shot keeps every sunk flag equal to "hits reached size" |
| GameClient.HitsAccumulate | src/components/GameClient.js:303-315 | after a series of shots each ship has one extra hit per hitting shot at its cells, and the sunk flags still agree |
| GameClient.RaceUpdate | src/components/GameClient.js:280-285 | hits grow by one on HIT or SUNK, misses by one on MISS, and any other result changes neither |
| GameClient.ResumeStats | src/components/GameClient.js:160-166 | on resume the hits are the server's, and the misses are the non-hit turns, never negative |
| GameClient.RaceCounts | src/components/GameClient.js:280-285 | counting from any start adds the number of hitting and missing results; with only HIT, SUNK or MISS they add up to the number of shots |
| GameClient.ResumeMatchesLocalCount | src/components/GameClient.js:163-165 | for HIT, SUNK or MISS results, the stats rebuilt on resume equal the locally counted ones |
| GameClient.IndexOf | src/components/GameClient.js:507 | `indexOf` is -1 exactly when the value is absent, and otherwise is its first position |
| GameClient.CountTrueAppend | src/components/GameClient.js:505-515 | one more flag adds one to the afloat count exactly when it is set |
| GameClient.IntersectStep | src/components/GameClient.js:505-509 | wanting one more value adds it to the intersection exactly when the other side has more of it |
| GameClient.MatchFound | src/components/GameClient.js:507-508 | a ship finds its size exactly when the remaining list holds more of that size than the earlier ships took |
| GameClient.MatchTake | src/components/GameClient.js:507-509 | a ship that finds its size removes one value and the taken values stay the intersection so far |
| GameClient.MatchSkip | src/components/GameClient.js:507-508 | a ship that does not find its size leaves the intersection as it was |
| GameClient.MatchSizes | src/components/GameClient.js:497-515 | ship i is afloat exactly when the remaining sizes hold more of its size than the ships before it, and the afloat count is the size of the multiset intersection |
| GameClient.MatchOne | src/components/GameClient.js:505-509 | one round of the scan keeps the matching invariant |
| GameClient.ShipsAfloat | src/components/GameClient.js:493-520 | "no data" exactly when the server sent no list; otherwise one flag per enemy ship with the afloat rule and count above |
| GameClient.CollapseRuns | src/components/GameClient.js:215 | the slug holds only letters, digits and '-', with no two '-' in a row |
| GameClient.Slug | src/components/GameClient.js:215 | a ship id holds only lowercase letters, digits and single '-' separators |
| GameClient.SlugOfPlainName | src/components/GameClient.js:215 | a name of lowercase letters and digits is its own slug |
| GameClient.SlugMatchesPlacementId | src/components/GameClient.js:215 | the id derived from each ship's name is the id the placement screen gives it |
| GameClient.CellKeys | src/components/GameClient.js:216-221 | one key per ship cell, in order |
| GameClient.BuildPlayerFleet | src/components/GameClient.js:205-239 | a classic game with ships gets a 10 by 10 board with each cell showing the last ship covering it (or '.'), and one fresh status per ship; otherwise no board and no ships |
| GameClient.PaintShip | src/components/GameClient.js:216-221 | the ship's id is written on exactly its cells, and its cell keys are collected in order |
| GameClient.OwnerExtend | src/components/GameClient.js:212-217 | one more ship takes over the cells it covers |
| GameClient.OwnerOfDisjointFleet | src/components/GameClient.js:212-230 | with non-overlapping ships each ship cell shows its ship's id, and a shot there carries a cell key of that ship and of no other |
| StatsPanel.GamesSoFar | src/components/StatsPanel.js:17 | only games 0..currentGameIndex contribute, with `slice`'s handling of a negative end |
| StatsPanel.FirstSeen | src/components/StatsPanel.js:22-25 | the summary lists every agent seen, each exactly once |
| StatsPanel.EntriesAppend | src/components/StatsPanel.js:20-22 | one more game adds its agents' entries at the end |
| StatsPanel.TotalsStep | src/components/StatsPanel.js:33-36 | an entry adds its turns and hits, and one game, to its agent's totals |
| StatsPanel.FirstSeenStep | src/components/StatsPanel.js:23-25 | an entry appends its agent to the order exactly when it was not seen before |
| StatsPanel.AddEntry | src/components/StatsPanel.js:22-37 | one step of the inner loop keeps the map and its key order equal to the totals of the entries so far |
| StatsPanel.OthersUnchanged | src/components/StatsPanel.js:33-36 | an entry leaves every other agent's totals unchanged |
| StatsPanel.AddGame | src/components/StatsPanel.js:20-38 | one game of the outer loop adds all its agents' entries to the totals |
| StatsPanel.CalculateTotals | src/components/StatsPanel.js:15-51 | one summary row per agent seen in the games so far, in first-seen order, each with its summed turns, summed hits and number of entries |
| StatsPanel.FirstSeenMembers | src/components/StatsPanel.js:23-25 | an agent never seen has zero totals |
| StatsPanel.CountConcat | src/components/StatsPanel.js:20-22 | entry counts add up over concatenated entry lists |
| StatsPanel.CountInGame | src/components/StatsPanel.js:22-36 | within one game an agent has one entry when present and none otherwise |
| StatsPanel.GamesCountsGames | src/components/StatsPanel.js:20-37 | an agent's game count is the number of games so far that hold it |
| StatsPanel.FocusBoard | src/components/StatsPanel.js:56-67 | focus mode shows exactly when an agent is selected and present, with its 'h'/'s'-counting card at this turn |

## Left out

- Network and browser I/O are not modelled: loading the game files, the server calls of the interactive game (`fetchGameState`, starting a game, the shot POST, `submitScore`), `window.history`, `prompt`, `alert` and `confirm`. The model covers only the state updates around them; the server's replies are parameters.
- Timers are not modelled: the `setInterval` scheduling and cleanup of auto-play, and the 4-second reasoning bubble. The tick body is `Playback.Player.Tick`.
- The pseudo-random generator's arithmetic is abstracted by a draw source: a double product above 2^53, `ToInt32` masking and a float division. Every chunk's draws are arbitrary values in the code's ranges: base 3-11, extra 5-15, and a burst flag. The draws depend only on the seed (`text.length * 31`) and the chunk number.
- Floating-point statistics are not modelled: averages, `toFixed`, per-game efficiency, the sort by efficiency, board efficiency and cost formatting. `StatsPanel.CalculateTotals` keeps the integer totals these are computed from.
- The prompt → typing → linger phase machine that drives `chunkIndex` lives in a component outside this model, so the model takes the chunk index as an input. `src/components/ReasoningViewer.js` embeds a `FloatingBoardPanel` for the active agent; that panel is modelled on its own, as `FloatingBoardPanel.FloatingPanel`.
- Pure presentation is not modelled: the JSX, `BoardDisplay.js`, `Controls.js`, `LandingPage.js`, `SummaryView.js`, the `InteractiveGrid` component and the last-five log lines.
- `handleResetGame` is not modelled. It calls the commented-out `setPlayerShipCells`, so it fails at run time before resetting anything after the board. `playerShipCells` is not modelled either, since its setter is commented out.
- `scripts/generate-manifest.js` is a file-system script and is not part of this model.
- Strings are sequences of Unicode characters. The code's `length`, indices, `substring` and `charCodeAt` count UTF-16 code units (src/components/ReasoningViewer.js:13, 19-33, 52; src/components/GameClient.js:290-291). For text outside the Basic Multilingual Plane, such as an emoji, the typing seed `length * 31`, every chunk offset and a cut that falls inside a surrogate pair therefore differ from the model. The properties proved about the boundaries hold in either unit.
- Playback.MaxTurns: requires a game with at least one agent, because `Math.max()` over no agents is `-Infinity` in the code. `Playback.Loaded` states this of every loaded game.
- Playback.Player.Seek: does not clamp the turn, following the code; the slider's bounds (src/components/Controls.js:66-67) that keep it in range belong to a control that is not part of this model.
- GameClient.ApplyAiShot: requires a move that decodes to a cell of the grid. In the code another move writes to an undefined row (a runtime error) or adds a stray column.
- GameClient.DecodeLabel: requires a non-empty move, because the code only decodes a truthy `ai_move`.
- GameClient.ParseInt: models only `parseInt` on a string that starts with its digits. Leading whitespace and a sign, which the server never sends, are not modelled.
- GameClient.Lower: lowercases ASCII letters only; other characters are kept as they are.
- GameClient.FormatAgentName: does not model keys inherited from `Object.prototype` (e.g. `"constructor"`), which the object lookup would also find.
- GameClient.ResumeStats: takes the server's counts as integers; missing counts are the `|| 0` default, given as 0.
- StatsPanel.CalculateTotals: lists agents in first-seen order, which is `Object.keys` order except for agent names that are array indices (such as `"1"`), which JavaScript lists first. A missing `turns` or `hits` (which would give `NaN`) is not modelled; the counts are natural numbers.
- Games: a missing `board_history` or string is modelled as empty, which every use in the code treats alike; a missing `move_metadata` is modelled apart, as `None`.
