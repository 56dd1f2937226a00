# RapGenerate — verified model of the scoring engine and match state machine

RapGenerate is a browser rap-battle card game. A player builds a deck of
Japanese "collocations" (short lyric cards, each with a type such as
`#攻撃` and a rhyming group A–D). Over two turns the player answers an enemy rap
by placing four cards into four slots and then tapping along to a 120 BPM
beat. Each turn is scored from three things:

- rhythm: the tap judgements;
- the rhyme chain: the largest number of chosen cards sharing a rhyming group;
- type compatibility: the most-used type against the enemy's type.

The cards played leave the remaining pool.

This Dafny project models that core:

- **`Types`, `Constants`** (`types.dfy`, `constants.dfy`): the value types and
  every constant and scoring table. Multipliers and weights are exact `real`s.
- **`Tally`** (`tally.dfy`): the counting loops behind the chain and type
  evaluations, as imperative methods proved against specification functions.
  It includes the `reduce` that picks the most-used type.
- **`GameLogic`** (`game_logic.dfy`): the evaluations, the turn total, the
  remaining-card pool, enemy turn info and the per-card annotations.
- **`CollocationsData`, `EnemyData`** (`collocations_data.dfy`,
  `enemy_data.dfy`): the 32-card catalog and its lookups. The enemy deck is
  built by find-or-throw, which the model states as a `Result`.
- **`StoreRules`** (`store_rules.dfy`): the pure rules behind the store
  actions, and the match invariant they keep. Under the invariant:
  - the total score is the sum of the turn results;
  - the pool is the match deck minus the played card ids;
  - the deck stays within its size cap and its ids stay unique;
  - no card sits in two slots;
  - the current turn stays in range.
- **`Store`** (`game_store.dfy`): the zustand store of `lib/store.ts`, which holds the game, tutorial and UI state together.
  It is a class whose methods update the match state, the error type, the
  tutorial state and the UI settings. Each method keeps `Valid()`.
- **`GameSliceStore`** (`game_slice_store.dfy`): the game slice of
  `lib/stores/game.store.ts`, the same machine as a separate class.
- **`TutorialStore`, `UIStore`** (`tutorial_store.dfy`, `ui_store.dfy`): the
  tutorial and UI-settings slices. Their setters change one field each.
  `updateUISupportSettings` is a partial merge.
- **`BattleRhythm`** (`battle_rhythm.dfy`): the `useBattleRhythm` hook. It
  covers:
  - timeline construction, as a loop proved against a closed-form layout;
  - the active item;
  - tap judgement windows and nearest-beat filler judging;
  - combo and max combo;
  - a `RhythmSession` class whose event methods stand for the hook's timers
    and handlers.
- **`CardSelection`** (`card_selection.dfy`): the `useCardSelection` hook.
  It covers the time limit, the resource-depletion check, the countdown and
  the slot and card clicks. They act on a `Store.GameStore`.

Randomness (which filler, which enemy rap) enters as parameters. Only two
events take a clock reading: `BeginPlay(now)` records the start time and
`Frame(now)` the elapsed time. The countdown tick, the selection timer tick and
the judgement-clearing timeout take none. Display strings of the annotations
are not modelled; the numbers they show are.

### Behaviour of the code worth knowing

- The chain multiplier table has an entry `5 → 4.0`
  (`lib/constants.ts:35`), so five cards of one group would score ×4.0. At
  most four cards are ever played, so `ChainMultiplier` is at most 3.0 in play.
- On a tie for the most-used type, the `reduce` at `lib/game-logic.ts:80-82`
  keeps the later entry. `Object.entries` lists the types in the order each
  was first seen, so the tied type whose first occurrence comes **latest**
  wins (`GameLogic.TieGoesToLaterType`).
- `lib/constants.ts:50` says each turn scores at most 100, and
  `WIN_CONDITION.MAX_SCORE_PER_TURN` is 100. `calculateTurnResult`
  (`lib/game-logic.ts:149-173`) applies no such cap. The catalog cards a05, a06
  (`#カウンター`), a03 (`#夢中`) and a08 (`#自慢`), all of group A, played
  against `#攻撃` with perfect taps score round(25 + 135 + 45) = 205
  (`GameLogic.BestTurnScores205`, `CollocationsData.CatalogHandScores205`).
- Tap results are recorded only by the tap handlers
  (`hooks/useBattleRhythm.ts:180-237`). A collocation item that is never
  tapped leaves no entry, and a filler tap is never judged Miss.
- The depletion check runs when the card-selection hook mounts or the pool
  changes (`hooks/useCardSelection.ts:39-47`).
- The judging code reads no setting: the windows are fixed at 100/200/300 ms
  (`hooks/useBattleRhythm.ts:140-142`), whatever `uiSupport.tapJudgement` holds.
- `lib/types.ts` and the code disagree in three places:
  - `"error"` is not a declared `GameScreen`, yet `setError` uses it. The
    model has an `Error` screen.
  - `"-"` is not a declared rhyming group, yet annotations test for it. The
    model has `Dash`.
  - The stores build enemy-turn records with lyrics, type, rhyming and two
    hints, not the declared `EnemyTurnInfo` shape. The model uses the shape
    the stores build.

## Model

| member | source | states |
|---|---|---|
| Constants.ScoreWeightsSumToOne | lib/constants.ts:15-19 | the rhythm, rhyming and type weights sum to exactly 1.0 |
| Constants.TapScoresStrictlyDecrease | lib/constants.ts:22-27 | tap scores strictly decrease Perfect > Good > Bad > Miss = 0 |
| Constants.ChainMultipliersIncrease | lib/constants.ts:30-36 | the chain table is defined exactly for 1..5, maps 1 to 1.0 and is strictly increasing |
| Constants.CompatibilityTableWellFormed | lib/constants.ts:39-46 | 6 entries with pairwise distinct (enemy, effective) pairs, every multiplier in (1.0, 1.5], no type effective against itself |
| Constants.DeckBoundsCoverMatch | lib/constants.ts:4-12 | MIN_DECK_SIZE ≤ MAX_DECK_SIZE and two turns of four cards fit in a minimum deck |
| Constants.HintTablesTotal | lib/constants.ts:54-68 | the mood hints cover all four types; the rhyme hints cover exactly the four groups A–D |
| Tally.Occurrences | lib/game-logic.ts:38-41 | a count is at most the length and is positive iff the value occurs |
| Tally.OccurrencesIsMultiplicity | lib/game-logic.ts:38-41 | the per-key count equals the multiset multiplicity, so counts ignore order |
| Tally.KeysInOrder | lib/game-logic.ts:80 | the keys of the count record are exactly the values present, without duplicates |
| Tally.KeysFollowFirstOccurrence | lib/game-logic.ts:80 | the keys are ordered by first occurrence, as `Object.entries` lists them |
| Tally.MostFrequentIndex | lib/game-logic.ts:80-82 | the `reduce` result has the maximum count and every later key has a strictly smaller count |
| Tally.MostFrequentIsLatestTiedMaximum | lib/game-logic.ts:80-82 | the chosen type has the highest count and, among tied types, the latest first occurrence |
| Tally.ReduceMostFrequent | lib/game-logic.ts:80-82 | the loop over the count record's entries returns the `reduce` winner's index |
| Tally.Tally | lib/game-logic.ts:72-77 | the counting loop yields a record holding exactly the values present, each with its number of occurrences, keys in first-seen order |
| GameLogic.NonNull | lib/game-logic.ts:27-29 | the filtered cards are exactly the non-null entries |
| GameLogic.ChainMultiplier | lib/game-logic.ts:45 | a table lookup with fallback 1.0: always in [1.0, 4.0], at most 3.0 for up to four cards, 1.0 for a single card |
| GameLogic.CalculateRhymingChainEvaluation | lib/game-logic.ts:24-56 | the counting loop returns the chain evaluation of the non-null cards |
| GameLogic.NoCardsNoChain | lib/game-logic.ts:31-33 | no valid cards gives chain (0, 1.0, 0) |
| GameLogic.ChainCountIsLargestGroup | lib/game-logic.ts:35-55 | chainCount is the largest same-group count, it is attained, the multiplier is the table value and the score is 100 × multiplier |
| GameLogic.SameRhymingIsFullChain | lib/game-logic.ts:35-44 | when all cards share a group the chain is every card |
| GameLogic.FourOfOneGroupTriplesScore | lib/game-logic.ts:24-56 | four cards of one group give (4, 3.0, 300) |
| GameLogic.DistinctRhymingsNoChain | lib/game-logic.ts:24-56 | cards of pairwise distinct groups give (1, 1.0, 100) |
| GameLogic.FindCompatibility | lib/game-logic.ts:85-87 | `find` returns a matching table entry, and none exactly when no entry matches |
| GameLogic.TieGoesToLaterType | lib/game-logic.ts:80-82 | one card each of two types picks the second |
| GameLogic.MostUsedTypeIsLatestTiedMaximum | lib/game-logic.ts:71-82 | the most-used type has the maximal count, ties going to the latest first-seen type |
| GameLogic.CalculateTypeCompatibilityEvaluation | lib/game-logic.ts:59-101 | the tally-and-reduce method returns the type evaluation of the non-null cards |
| GameLogic.TypeEvaluationFollowsTable | lib/game-logic.ts:84-100 | compatible iff the table has (enemy type, most-used type); the multiplier is that entry's, else 1.0; the score is 100 × multiplier |
| GameLogic.NoCardsNoTypeMatch | lib/game-logic.ts:67-69 | no valid cards gives (false, 1.0, 0) |
| GameLogic.CounterBeatsAttack | lib/game-logic.ts:59-101 | four `#カウンター` cards against `#攻撃` give (true, 1.5, 150) |
| GameLogic.CalculateRhythmEvaluation | lib/game-logic.ts:104-146 | the switch-and-count loop returns the rhythm evaluation of the taps |
| GameLogic.JudgementCountsSum | lib/game-logic.ts:112-127 | the four judgement counts add up to the number of taps |
| GameLogic.RhythmCountsCoverInput | lib/game-logic.ts:107-127 | perfect + good + bad + miss equals the input length |
| GameLogic.RhythmScoreIsMeanTapValue | lib/game-logic.ts:129-137 | an empty input scores 0; otherwise the score is (100P + 70G + 30B)/n, within [0, 100] |
| GameLogic.AllPerfectScoresHundred | lib/game-logic.ts:104-146 | all-Perfect taps score exactly 100 |
| GameLogic.RhythmPermutationInvariant | lib/game-logic.ts:112-137 | reordering the tap results changes neither counts nor score |
| GameLogic.CalculateTurnResult | lib/game-logic.ts:149-173 | the result carries the rhythm, chain and type evaluations of its inputs, and totalScore is `Math.round` of 0.25·rhythm + 0.45·chain + 0.30·type: the nearest integer, halves up; its bounds are `GameLogic.TurnTotalBounds` and `GameLogic.BestTurnScores205` |
| GameLogic.TurnTotalBounds | lib/game-logic.ts:149-173 | the rounded weighted total lies in [0, 250] and is at most 205 with at most four cards |
| GameLogic.BestTurnScores205 | lib/game-logic.ts:149-173 | four cards of one group typed #カウンター, #カウンター, #夢中, #自慢 with three Perfect taps against #攻撃 total 205, the bound of `TurnTotalBounds` and above the per-turn 100 of the win condition |
| GameLogic.FilterRhyming | lib/game-logic.ts:191-194 | a bucket holds exactly the cards of that group |
| GameLogic.RemoveIds | lib/game-logic.ts:184-186 | the filtered list holds exactly the cards whose id is not used |
| GameLogic.RemoveIdsIsSubsequence | lib/game-logic.ts:186 | filtering keeps the remaining cards in their original order |
| GameLogic.RemoveIdsTwice | lib/game-logic.ts:186 | filtering by two id sets in turn equals filtering by their union |
| GameLogic.InitializeRemainingCollocations | lib/game-logic.ts:224-236 | `all` is the deck and every bucket is `all` filtered by its group |
| GameLogic.InitializePartitionsDeck | lib/game-logic.ts:224-236 | `all` is the deck, the buckets hold exactly their group's cards, and their sizes sum to the deck size when every card is in A–D |
| GameLogic.BucketsPartition | lib/game-logic.ts:230-233 | the four group filters partition any list of A–D cards |
| GameLogic.UpdateRemainingCollocations | lib/game-logic.ts:176-197 | the new `all` is the old one minus the used non-null ids, and the buckets are recomputed from it |
| GameLogic.UpdateRemovesExactlyUsed | lib/game-logic.ts:180-186 | the new pool is an order-preserving subsequence holding exactly the old cards not among the used ones |
| GameLogic.UpdateIdempotent | lib/game-logic.ts:176-197 | applying the same update twice equals applying it once |
| GameLogic.UpdateComposes | lib/game-logic.ts:176-197 | two updates in a row equal one update with both turns' cards |
| GameLogic.UpdateNothingUsed | lib/game-logic.ts:176-197 | an update with only nulls leaves a fresh pool unchanged |
| GameLogic.GenerateEnemyTurnInfo | lib/game-logic.ts:200-213 | lyrics, type and rhyming copied from the card; the mood hint always found; the rhyme hint found for A–D and "不明" otherwise |
| GameLogic.CalculateCardAnnotations | lib/game-logic.ts:239-298 | at most one chain, then type-match, then warning annotation; each present iff its condition holds, carrying chain length = shared count + 1 with its multiplier, the table multiplier, or the remaining count |
| GameLogic.ChainBadge | lib/game-logic.ts:245-267 | a chain annotation appears iff the card's rhyming is not "-" and a selected card shares it; its length is the shared count + 1 |
| GameLogic.TypeMatchBadge | lib/game-logic.ts:269-285 | a type-match annotation appears iff an enemy type is known and the table has (enemy type, card type); it carries that entry's multiplier |
| GameLogic.WarningBadge | lib/game-logic.ts:287-295 | a warning appears iff the card's group has 1 or 2 cards remaining, and carries that count |
| CollocationsData.GetCollocationsByRhyming | lib/collocations-data.ts:47-49 | exactly the catalog cards of that rhyming group |
| CollocationsData.GetCollocationsByType | lib/collocations-data.ts:52-54 | exactly the catalog cards of that type |
| CollocationsData.GetCollocationById | lib/collocations-data.ts:57-59 | a catalog card with that id if there is one, and none exactly when no card has it |
| CollocationsData.FindByIdOfMember | lib/collocations-data.ts:57-59 | in a list with distinct ids, finding a member's id returns that member |
| CollocationsData.CatalogIdsDistinct | lib/collocations-data.ts:4-44 | the 32 catalog ids are pairwise distinct |
| CollocationsData.GetCollocationByIdRoundTrip | lib/collocations-data.ts:57-59 | looking up any catalog card's id returns that card |
| CollocationsData.GroupLookup | lib/collocations-data.ts:47-49 | each group's lookup is exactly its own block of the catalog, in catalog order |
| CollocationsData.RhymingGroupsPartitionCatalog | lib/collocations-data.ts:5-43 | groups A/B/C/D hold 9/8/7/8 cards, "-" none, 32 in all |
| CollocationsData.TypeFiltersPartition | lib/collocations-data.ts:52-54 | the four type filters partition any card list |
| CollocationsData.TypeLookupsPartitionCatalog | lib/collocations-data.ts:52-54 | the four type lookups partition the catalog, each card in exactly its own type's list |
| CollocationsData.CatalogHandScores205 | lib/collocations-data.ts:8-13 | the catalog cards a05, a06, a03 and a08 with three Perfect taps against #攻撃 reach the turn total 205 |
| EnemyData.Require | lib/enemy-data.ts:5-11 | find-or-throw: success iff a card with the id exists, returning it; otherwise the not-found error |
| EnemyData.GetRequiredCollocationById | lib/enemy-data.ts:5-11 | the catalog lookup succeeds iff the id is in the catalog and fails with the not-found message otherwise |
| EnemyData.RequireAllSucceedsIffAllFound | lib/enemy-data.ts:18-48 | building a deck by lookups succeeds iff every id is found |
| EnemyData.RequireAllValues | lib/enemy-data.ts:18-48 | a successful build holds, position by position, the card found for each id |
| EnemyData.RequireAllFailure | lib/enemy-data.ts:5-11 | a failed build fails with the not-found message of an id that is missing from the catalog |
| EnemyData.RequireAllOfMembers | lib/enemy-data.ts:18-48 | looking up the ids of catalog cards rebuilds exactly those cards |
| EnemyData.StreetFighterLoads | lib/enemy-data.ts:14-50 | every lookup of the Street Fighter deck succeeds, so the module loads without throwing |
| EnemyData.StreetFighterDeckIsLegal | lib/enemy-data.ts:19-48 | the enemy deck has 20 cards (within the deck bounds) with distinct ids |
| EnemyData.StreetFighterDeckIsBalanced | lib/enemy-data.ts:20-47 | the enemy deck holds 8 `#攻撃`, 5 `#自慢`, 4 `#カウンター` and 3 `#夢中` cards |
| EnemyData.FindEnemy | lib/enemy-data.ts:56-58 | `find` by id: a match if there is one, none exactly when no enemy has the id |
| EnemyData.GetEnemyById | lib/enemy-data.ts:53-58 | found iff the id is the Street Fighter's, and then it is that enemy |
| EnemyData.GetDefaultEnemy | lib/enemy-data.ts:61-63 | the default enemy is listed and is found again by its id |
| StoreRules.ToggleInDeck | lib/store.ts:159-183 | removes the card if its id is present; otherwise appends it when the deck has room, else leaves the deck unchanged |
| StoreRules.ToggleKeepsDeckValid | lib/store.ts:159-183 | toggling keeps the deck within MAX_DECK_SIZE with unique ids |
| StoreRules.ToggleTwiceRestores | lib/store.ts:159-183 | adding a new card and toggling it again restores the deck |
| StoreRules.SelectForSlot | lib/store.ts:265-281 | no change if the card's id is in any slot; otherwise only the named slot changes, to that card |
| StoreRules.SelectKeepsSlotIdsDistinct | lib/store.ts:265-281 | selecting keeps every card id in at most one slot |
| StoreRules.ClearSlot | lib/store.ts:283-289 | only the named slot becomes empty, so not all slots are filled |
| StoreRules.ClearKeepsSlotIdsDistinct | lib/store.ts:283-289 | clearing keeps slot ids distinct |
| StoreRules.ClearThenSelect | lib/store.ts:265-289 | clearing a slot and selecting a new card into it sets just that slot |
| StoreRules.AllSlotsFilledMeansEverySlot | lib/store.ts:291-295 | the four-way non-null test holds iff every slot is filled |
| StoreRules.FilledSlotsUseFourCards | lib/store.ts:307-313 | four filled, distinct slots remove four card ids from the pool |
| StoreRules.SumScoresAppend | lib/store.ts:315-317 | appending a result adds its total to the running sum |
| StoreRules.EnemyTurnFor | lib/store.ts:211-251 | tutorial level 1 gives the tutorial rap, level 2 the turn-1 or turn-2 rap, otherwise a rap of the current turn's list |
| StoreRules.TutorialRapsAreAnswerable | lib/store.ts:213-238 | the level-1 rap is `#攻撃`/B, which a B-group `#カウンター` card in the catalog answers; level 2 rhymes A then C |
| StoreRules.InitialMatchState | lib/store.ts:76-99 | the initial state: title screen, empty deck and pool, turn 1 of 2, empty slots, no results, score 0, not started |
| StoreRules.InitialMatchStateIsValid | lib/store.ts:76-99 | the initial state satisfies the match invariant |
| StoreRules.StartMatch | lib/store.ts:195-209 | the pool is initialised from the deck, turn 1, no results, score 0, enemy-turn screen, started and not finished |
| StoreRules.StartMatchKeepsInvariant | lib/store.ts:195-209 | starting establishes the invariant with the deck as match deck and nothing played |
| StoreRules.FinishTurn | lib/store.ts:307-321 | appends the result, adds its total, removes the selected cards from the pool and shows the turn result |
| StoreRules.FinishTurnKeepsInvariant | lib/store.ts:307-321 | finishing keeps score = sum of results and pool = match deck minus played ids, the played ids growing by the selected ones |
| StoreRules.ResetMatch | lib/store.ts:340-347 | back to the initial state except deck and enemy |
| StoreRules.ResetMatchKeepsInvariant | lib/store.ts:340-347 | the reset state satisfies the invariant |
| StoreRules.NextTurn | lib/store.ts:323-338 | past maxTurns the game finishes with the turn unchanged; otherwise the turn advances |
| StoreRules.TwoTurnMatch | lib/store.ts:323-338 | with two turns: turn 1 advances to 2, and turn 2 finishes |
| StoreRules.NextTurnStaysInRange | lib/store.ts:323-338 | the turn stays in [1, maxTurns] and the game finishes exactly at the last turn |
| StoreRules.PlayKeepsPool | lib/store.ts:307-321 | if the pool is the deck minus played ids, after an update it is the deck minus the played and the newly used ids |
| Store.GameStore.constructor | lib/store.ts:148-155 | the store starts from the initial match state with the default enemy, no error, and the initial tutorial and UI settings |
| Store.GameStore.SetScreen | lib/store.ts:157 | only the screen changes |
| Store.GameStore.ToggleCollocationInDeck | lib/store.ts:159-183 | the deck becomes the toggle of the card, within the size cap, nothing else changes |
| Store.GameStore.IsCollocationInDeck | lib/store.ts:185-188 | true iff a card with that id is in the deck |
| Store.GameStore.CanAddToDeck | lib/store.ts:190-193 | true iff the deck is below MAX_DECK_SIZE |
| Store.GameStore.StartGame | lib/store.ts:195-209 | the match starts from the current deck with nothing played |
| Store.GameStore.GenerateEnemyTurn | lib/store.ts:211-251 | only the enemy turn info changes, to the tutorial or picked rap |
| Store.GameStore.ProceedToPlayerPrepare | lib/store.ts:253-263 | the battle-prepare screen, all slots empty, no filler taps |
| Store.GameStore.SelectCollocationForSlot | lib/store.ts:265-281 | only the slots change, by the select rule |
| Store.GameStore.ClearSlot | lib/store.ts:283-289 | only the named slot is cleared |
| Store.GameStore.CanProceedToAttack | lib/store.ts:291-295 | true iff all four slots are filled |
| Store.GameStore.ProceedToAttack | lib/store.ts:297-300 | only the screen changes, to battle-attack |
| Store.GameStore.AddFillerTapResult | lib/store.ts:302-305 | the tap result is appended, nothing else changes |
| Store.GameStore.FinishAttackPhase | lib/store.ts:307-321 | the turn is finished, the invariant kept, and the played ids grow by the selected cards |
| Store.GameStore.ProceedToNextTurn | lib/store.ts:323-338 | past the last turn: finished and final-result screen; otherwise the next turn and enemy-turn screen |
| Store.GameStore.ResetGame | lib/store.ts:340-347 | the match is reset and the error cleared, keeping deck, enemy, tutorial state and UI settings |
| Store.GameStore.SetTutorialLevel | lib/store.ts:350-356 | only the tutorial's current level changes |
| Store.GameStore.SetTutorialStep | lib/store.ts:358-364 | only the tutorial's current step changes |
| Store.GameStore.CompleteTutorialLevel | lib/store.ts:366-372 | the level is appended to the completed levels, nothing else changes |
| Store.GameStore.SkipTutorial | lib/store.ts:374-381 | the tutorial becomes inactive and skipped, nothing else changes |
| Store.GameStore.SetTutorialActive | lib/store.ts:383-389 | only the tutorial's active flag changes |
| Store.GameStore.UpdateUISupportSettings | lib/store.ts:392-398 | the UI settings become the partial merge, nothing else changes |
| Store.GameStore.SetError | lib/store.ts:401-405 | the error is recorded; a non-null error switches to the error screen, null keeps the screen |
| GameSliceStore.GameSlice.constructor | lib/stores/game.store.ts:62-92 | the slice starts from the initial game state with the default enemy |
| GameSliceStore.GameSlice.SetScreen | lib/stores/game.store.ts:94 | only the screen changes |
| GameSliceStore.GameSlice.ToggleCollocationInDeck | lib/stores/game.store.ts:96-120 | the deck becomes the toggle of the card, within the size cap |
| GameSliceStore.GameSlice.IsCollocationInDeck | lib/stores/game.store.ts:122-125 | true iff a card with that id is in the deck |
| GameSliceStore.GameSlice.CanAddToDeck | lib/stores/game.store.ts:127-130 | true iff the deck is below MAX_DECK_SIZE |
| GameSliceStore.GameSlice.StartGame | lib/stores/game.store.ts:132-146 | the match starts from the current deck with nothing played |
| GameSliceStore.GameSlice.GenerateEnemyTurn | lib/stores/game.store.ts:148-188 | only the enemy turn info changes, to the tutorial or picked rap |
| GameSliceStore.GameSlice.ProceedToPlayerPrepare | lib/stores/game.store.ts:190-200 | the battle-prepare screen, all slots empty, no filler taps |
| GameSliceStore.GameSlice.SelectCollocationForSlot | lib/stores/game.store.ts:202-218 | only the slots change, by the select rule |
| GameSliceStore.GameSlice.ClearSlot | lib/stores/game.store.ts:220-226 | only the named slot is cleared |
| GameSliceStore.GameSlice.CanProceedToAttack | lib/stores/game.store.ts:228-232 | true iff all four slots are filled |
| GameSliceStore.GameSlice.ProceedToAttack | lib/stores/game.store.ts:234-237 | only the screen changes, to battle-attack |
| GameSliceStore.GameSlice.AddFillerTapResult | lib/stores/game.store.ts:239-242 | the tap result is appended |
| GameSliceStore.GameSlice.FinishAttackPhase | lib/stores/game.store.ts:244-258 | the turn is finished, the invariant kept, and the played ids grow by the selected cards |
| GameSliceStore.GameSlice.ProceedToNextTurn | lib/stores/game.store.ts:260-275 | past the last turn: finished and final-result screen; otherwise the next turn and enemy-turn screen |
| GameSliceStore.GameSlice.ResetGame | lib/stores/game.store.ts:277-282 | back to the initial game state, keeping only deck and enemy |
| TutorialStore.InitialTutorialStateIsFresh | lib/stores/tutorial.store.ts:13-18 | the tutorial starts inactive at level 1, with nothing completed, no step and not skipped |
| TutorialStore.InitialRestrictions | lib/stores/tutorial.store.ts:19-44 | level 1 is one untimed turn; levels 2 and 3 are two turns of 10000 and 8000 ms; deck building opens at level 3 only |
| TutorialStore.TutorialSlice.constructor | lib/stores/tutorial.store.ts:53 | the slice starts with the initial tutorial state |
| TutorialStore.TutorialSlice.SetTutorialLevel | lib/stores/tutorial.store.ts:55-61 | only currentLevel changes |
| TutorialStore.TutorialSlice.SetTutorialStep | lib/stores/tutorial.store.ts:63-69 | only currentStep changes |
| TutorialStore.TutorialSlice.CompleteTutorialLevel | lib/stores/tutorial.store.ts:71-77 | the level is appended at the end, without de-duplication; nothing else changes |
| TutorialStore.TutorialSlice.SkipTutorial | lib/stores/tutorial.store.ts:79-86 | inactive and skipped, nothing else changes |
| TutorialStore.TutorialSlice.SetTutorialActive | lib/stores/tutorial.store.ts:88-94 | only isActive changes |
| UIStore.InitialSettings | lib/stores/ui.store.ts:11-20 | all support flags on, combo limit 8, judgement "normal", volumes 70 and 80 |
| UIStore.Merge | lib/stores/ui.store.ts:31-37 | every field given in the partial is overwritten and every other field kept |
| UIStore.MergeNothing | lib/stores/ui.store.ts:31-37 | merging an empty partial changes nothing |
| UIStore.MergeIdempotent | lib/stores/ui.store.ts:31-37 | merging the same partial twice equals merging it once |
| UIStore.MergeComposes | lib/stores/ui.store.ts:31-37 | two merges equal one merge of the combined partial, the later one winning |
| UIStore.MergeFullOverwrites | lib/stores/ui.store.ts:31-37 | merging a partial with every field set yields exactly those settings |
| UIStore.ScreenAfterError | lib/stores/ui.store.ts:39-43 | a non-null error shows the error screen; null keeps the current screen |
| UIStore.UISlice.constructor | lib/stores/ui.store.ts:28-29 | the slice starts with the initial settings and no error |
| UIStore.UISlice.UpdateUISupportSettings | lib/stores/ui.store.ts:31-37 | the settings become the merge; error and screen are unchanged |
| UIStore.UISlice.SetError | lib/stores/ui.store.ts:39-43 | the error is recorded; a non-null error shows the error screen, null keeps the screen; settings unchanged |
| BattleRhythm.BeatTiming | hooks/useBattleRhythm.ts:6-10 | one beat is 60000/120 = 500 ms and the bar of 11 beats is four two-beat cards plus three one-beat fillers |
| BattleRhythm.BuildTimeline | hooks/useBattleRhythm.ts:48-79 | the loop builds exactly the closed-form layout: 2n−1 items, card k at 1500k ms for 1000 ms, filler k at 1500k+1000 ms for 500 ms, ids in order |
| BattleRhythm.TimelineIsBackToBack | hooks/useBattleRhythm.ts:48-79 | every item starts where the previous ends, durations are positive, ids are 0, 1, 2, … |
| BattleRhythm.TimelineSpan | hooks/useBattleRhythm.ts:48-79 | the timeline starts at 0 and ends at 1500n − 500, with cards at even and fillers at odd positions |
| BattleRhythm.FourCardsFillTheBar | hooks/useBattleRhythm.ts:7-10 | four cards give 7 items ending at TOTAL_DURATION = 5500 |
| BattleRhythm.ActiveItem | hooks/useBattleRhythm.ts:173-177 | the found item covers the current time; none iff no item covers it |
| BattleRhythm.ActiveItemIsTheCoveringItem | hooks/useBattleRhythm.ts:173-177 | on a back-to-back timeline the active item is the unique item covering the time |
| BattleRhythm.ContiguousCoversSpan | hooks/useBattleRhythm.ts:173-177 | every time within the timeline's span has an active item |
| BattleRhythm.CardIsActiveDuringItsBeats | hooks/useBattleRhythm.ts:173-177 | during card i's two beats the active item is that card's item |
| BattleRhythm.ActiveExactlyWithinSpan | hooks/useBattleRhythm.ts:173-177 | an item is active iff 0 ≤ time < 1500n − 500 |
| BattleRhythm.CalculateJudgement | hooks/useBattleRhythm.ts:135-148 | Perfect iff diff < 100, Good iff 100 ≤ diff < 200, Bad iff 200 ≤ diff < 300, Miss iff diff ≥ 300 |
| BattleRhythm.JudgementFavoursCloserTaps | hooks/useBattleRhythm.ts:135-148 | early and late taps are judged alike, and a closer tap is judged no worse |
| BattleRhythm.NearestBeatTime | hooks/useBattleRhythm.ts:208-209 | the rounded beat is a multiple of 500 within [−250, 250) of the tap |
| BattleRhythm.OneBeatPerWindow | hooks/useBattleRhythm.ts:208-209 | exactly one beat lies that close, so the nearest beat is unique |
| BattleRhythm.FillerJudgement | hooks/useBattleRhythm.ts:206-216 | a filler tap is judged against its nearest beat and is never Miss |
| BattleRhythm.FillerJudgementRepeatsEachBeat | hooks/useBattleRhythm.ts:206-216 | shifting a tap by one beat shifts its beat by one beat and keeps its judgement |
| BattleRhythm.ComboOf | hooks/useBattleRhythm.ts:160-170 | after any sequence of judgements, combo ≤ maxCombo |
| BattleRhythm.ComboIsTrailingStreak | hooks/useBattleRhythm.ts:160-170 | the combo is the length of the trailing run of Perfect/Good judgements |
| BattleRhythm.StreakWithinBest | hooks/useBattleRhythm.ts:160-170 | every run of Perfect/Good judgements is at most maxCombo |
| BattleRhythm.StreakEndsInCombo | hooks/useBattleRhythm.ts:160-170 | a run reaching the end is no longer than the combo |
| BattleRhythm.BestIsAttained | hooks/useBattleRhythm.ts:160-170 | maxCombo is the length of some actual run, so it is the longest run |
| BattleRhythm.RhythmSession.constructor | hooks/useBattleRhythm.ts:29-81 | the session starts with the built timeline, countdown 3, time 0, nothing tapped, combo 0 |
| BattleRhythm.RhythmSession.CountdownTick | hooks/useBattleRhythm.ts:84-100 | the countdown decreases by one and stops at 0; nothing else changes |
| BattleRhythm.RhythmSession.BeginPlay | hooks/useBattleRhythm.ts:89-95 | countdown 0, playing, start time = now |
| BattleRhythm.RhythmSession.Frame | hooks/useBattleRhythm.ts:107-132 | while playing, the time is now − start; playing stops and finished is set once it reaches 5500; otherwise nothing changes |
| BattleRhythm.RhythmSession.UpdateCombo | hooks/useBattleRhythm.ts:160-170 | Perfect/Good increments combo and raises maxCombo to it; Bad/Miss resets combo |
| BattleRhythm.RhythmSession.HandleMainTap | hooks/useBattleRhythm.ts:180-203 | only an untapped active card item records a tap, judged against its start time; otherwise nothing changes; tap ids stay distinct |
| BattleRhythm.RhythmSession.HandleFillerTap | hooks/useBattleRhythm.ts:206-237 | exactly one result is appended, judged against the nearest beat, and it is never Miss |
| BattleRhythm.RhythmSession.ClearLastJudgement | hooks/useBattleRhythm.ts:195 | the last judgement is cleared, nothing else changes |
| CardSelection.TimeLimit | hooks/useCardSelection.ts:26-34 | the time limit is positive, and 8 s outside the tutorial |
| CardSelection.TutorialTimeLimits | hooks/useCardSelection.ts:26-34 | 8 s outside the tutorial and at level 1, which has no limit; 10 s at level 2; 8 s at level 3 |
| CardSelection.CountdownRunsOut | hooks/useCardSelection.ts:50-63 | after n ticks the time left is max(0, start − n) |
| CardSelection.NextSlot | hooks/useCardSelection.ts:69-74 | the slot after a slot is the next one in order, none after slot 4 |
| CardSelection.SlotClickKeepsHighlightEmpty | hooks/useCardSelection.ts:77-86 | a filled slot is cleared and deselected; an empty one is highlighted |
| CardSelection.CardClickKeepsHighlightEmpty | hooks/useCardSelection.ts:89-105 | after a card click the highlight, if any, is on an empty slot right after the one just used |
| CardSelection.FourClicksFillTheSlots | hooks/useCardSelection.ts:89-105 | four distinct cards clicked from slot 1 fill slots 1–4 in order and leave nothing highlighted |
| CardSelection.CardSelectionHook.constructor | hooks/useCardSelection.ts:22-36 | no slot selected and time left = the time limit |
| CardSelection.CardSelectionHook.CheckResources | hooks/useCardSelection.ts:39-47 | fewer than 4 remaining cards raises resource-depleted and the error screen; otherwise nothing changes |
| CardSelection.CardSelectionHook.TimerTick | hooks/useCardSelection.ts:50-63 | time decreases by 1, clamped at 0; at 0 the attack starts only if all four slots are filled |
| CardSelection.CardSelectionHook.HandleSlotClick | hooks/useCardSelection.ts:77-86 | store slots and selected slot follow the slot-click rule; nothing else changes |
| CardSelection.CardSelectionHook.HandleCardClick | hooks/useCardSelection.ts:89-105 | store slots and selected slot follow the card-click rule, advancing even when the store rejects a duplicate |

## Left out

- Randomness: `getRandomFiller`, `getRandomEnemyRap`, `getRandomCollocationFromDeck` and the random branch of `generateEnemyTurn` are not modelled as draws. The filler, or the index of the enemy rap, is a parameter.
- BattleRhythm.BuildTimeline: the fillers drawn for the gaps arrive as a sequence that must hold at least one filler per gap, instead of being drawn inside the loop.
- Wall-clock timers (`setInterval`, `setTimeout`, `requestAnimationFrame`, `Date.now`) become explicit events: `CountdownTick`, `BeginPlay(now)`, `Frame(now)`, `ClearLastJudgement` and `TimerTick`. Their scheduling, cancellation and interleaving are not modelled.
- Audio (`lib/audio-manager.ts`, `lib/audio-config.ts`): beat start and stop and tap sounds have no effect on the model.
- Tap effects, the progress percentage and `console.error` in the hooks are presentation and are left out.
- GameLogic.CalculateTurnResult: the weighted sum and `Math.round` use exact reals and round-half-up (`floor(x + 0.5)`), not IEEE doubles. Totals that land next to a .5 boundary in floating point may round differently.
- GameLogic.CalculateCardAnnotations: the icon, text and subtext strings are not built. Each annotation carries only the numbers the strings show.
- UIStore.Merge: a partial is an `Option` per field. A field present with the value `undefined`, which the JavaScript spread would copy, is not modelled.
- Store.GameStore.GenerateEnemyTurn: the normal-mode rap is the one at a given index of the current turn's rap list. The record contents come from `lib/enemy-raps.ts`, whose random pick is not part of this model.
- lib/tutorial-data.ts is not part of this model. It refers to collocation ids the catalog does not contain, so its decks cannot be rebuilt.
- hooks/useTutorialHints.ts, the screens and the UI components are presentation and are not part of this model.
- The three slices in `lib/stores/` are typed to be combined: `lib/stores/game.store.ts:86-91` expects a `tutorialState` field and `lib/stores/ui.store.ts:22-27` expects `currentScreen` and `setScreen`. No source file combines them, and the screens use the store of `lib/store.ts`. Each slice is therefore its own class here, and `GameSliceStore.GameSlice.GenerateEnemyTurn` takes the tutorial state as a parameter. Were the slices combined with zustand's shallow `set`, the game slice's `resetGame` would leave `errorType` untouched, whereas `Store.GameStore.ResetGame` clears it.
- CardSelection.CardSelectionHook.HandleCardClick: the hook checks the next slot against the slots it read at render time. The model reads them just before the store update. The two agree, because the update changes only the selected slot and never the next one.
