/**
 * The game slice (lib/stores/game.store.ts): the same match record and
 * actions as the game store. The slice is typed to sit beside a
 * `tutorialState` field but holds no tutorial, settings or error fields of
 * its own; generateEnemyTurn reads that tutorial record, here a parameter.
 * `Valid()` is the same invariant as the game store's.
 */
module GameSliceStore {
  import opened Wrappers
  import opened Types
  import opened Constants
  import opened GameLogic
  import opened TutorialStore
  import opened StoreRules
  import EnemyData

  class GameSlice {
    var game: MatchState

    /** The deck the current match was started from. */
    ghost var matchDeck: seq<Collocation>
    /** The ids of the cards played in the current match. */
    ghost var playedIds: set<string>

    ghost predicate Valid()
      reads this
    {
      MatchInvariant(game, matchDeck, playedIds)
    }

    constructor()
      ensures Valid()
      ensures game == InitialMatchState(EnemyData.GetDefaultEnemy())
    {
      var enemy := EnemyData.GetDefaultEnemy();
      InitialMatchStateIsValid(enemy);
      game := InitialMatchState(enemy);
      matchDeck := [];
      playedIds := {};
    }

    method SetScreen(screen: GameScreen)
      requires Valid()
      modifies this
      ensures Valid()
      ensures game == old(game).(currentScreen := screen)
    {
      game := game.(currentScreen := screen);
    }

    /** toggleCollocationInDeck: remove the card's id, or append it if the deck has room. */
    method ToggleCollocationInDeck(c: Collocation)
      requires Valid()
      modifies this
      ensures Valid()
      ensures game == old(game).(playerDeck := ToggleInDeck(old(game.playerDeck), c))
      ensures |game.playerDeck| <= MAX_DECK_SIZE
    {
      ToggleKeepsDeckValid(game.playerDeck, c);
      var isInDeck := IsInDeck(game.playerDeck, c.id);
      if isInDeck {
        game := game.(playerDeck := RemoveIds(game.playerDeck, {c.id}));
      } else if |game.playerDeck| < MAX_DECK_SIZE {
        game := game.(playerDeck := game.playerDeck + [c]);
      }
    }

    /** isCollocationInDeck. */
    method IsCollocationInDeck(id: string) returns (inDeck: bool)
      ensures inDeck <==> exists c :: c in game.playerDeck && c.id == id
    {
      inDeck := IsInDeck(game.playerDeck, id);
    }

    /** canAddToDeck. */
    method CanAddToDeck() returns (canAdd: bool)
      ensures canAdd <==> |game.playerDeck| < MAX_DECK_SIZE
    {
      canAdd := |game.playerDeck| < MAX_DECK_SIZE;
    }

    /** startGame: a fresh pool from the deck, turn 1, no results, the opponent's turn. */
    method StartGame()
      requires Valid()
      modifies this
      ensures Valid()
      ensures game == StartMatch(old(game))
      ensures matchDeck == game.playerDeck && playedIds == {}
    {
      StartMatchKeepsInvariant(game, matchDeck, playedIds);
      var remaining := InitializeRemainingCollocations(game.playerDeck);
      matchDeck := game.playerDeck;
      playedIds := {};
      game := game.(isGameStarted := true, currentTurn := 1, remainingCollocations := remaining,
        currentScreen := EnemyTurn, turnResults := [], totalScore := 0, isGameFinished := false);
    }

    /**
     * generateEnemyTurn: the fixed tutorial raps in tutorial levels 1 and 2 of
     * `tutorialState` (the tutorial record of the store this slice is part
     * of), otherwise the rap at `pick` (the random draw) for the current turn.
     */
    method GenerateEnemyTurn(tutorialState: TutorialState, pick: nat)
      requires Valid()
      requires pick < |EnemyRapsFor(game.currentTurn)|
      modifies this
      ensures Valid()
      ensures game == old(game).(currentEnemyTurnInfo := Some(EnemyTurnFor(tutorialState, game.currentTurn, pick)))
    {
      game := game.(currentEnemyTurnInfo := Some(EnemyTurnFor(tutorialState, game.currentTurn, pick)));
    }

    /** proceedToPlayerPrepare: empty slots, no taps, the prepare screen. */
    method ProceedToPlayerPrepare()
      requires Valid()
      modifies this
      ensures Valid()
      ensures game == old(game).(currentScreen := BattlePrepare, selectedTurnCollocations := EMPTY_SLOTS, fillerTapResults := [])
    {
      game := game.(currentScreen := BattlePrepare, selectedTurnCollocations := EMPTY_SLOTS, fillerTapResults := []);
    }

    /** selectCollocationForSlot: refused when the card's id is in any slot. */
    method SelectCollocationForSlot(slot: SlotName, c: Collocation)
      requires Valid()
      modifies this
      ensures Valid()
      ensures game == old(game).(selectedTurnCollocations := SelectForSlot(old(game.selectedTurnCollocations), slot, c))
    {
      SelectKeepsSlotIdsDistinct(game.selectedTurnCollocations, slot, c);
      var isAlreadySelected := IsAlreadySelected(game.selectedTurnCollocations, c.id);
      if !isAlreadySelected {
        game := game.(selectedTurnCollocations := game.selectedTurnCollocations.With(slot, Some(c)));
      }
    }

    /** clearSlot. */
    method ClearSlot(slot: SlotName)
      requires Valid()
      modifies this
      ensures Valid()
      ensures game == old(game).(selectedTurnCollocations := StoreRules.ClearSlot(old(game.selectedTurnCollocations), slot))
    {
      ClearKeepsSlotIdsDistinct(game.selectedTurnCollocations, slot);
      game := game.(selectedTurnCollocations := game.selectedTurnCollocations.With(slot, None));
    }

    /** canProceedToAttack: every slot holds a card. */
    method CanProceedToAttack() returns (ready: bool)
      ensures ready <==> forall s :: game.selectedTurnCollocations.Get(s).Some?
    {
      AllSlotsFilledMeansEverySlot(game.selectedTurnCollocations);
      var slots := game.selectedTurnCollocations;
      ready := slots.slot1.Some? && slots.slot2.Some? && slots.slot3.Some? && slots.slot4.Some?;
    }

    method ProceedToAttack()
      requires Valid()
      modifies this
      ensures Valid()
      ensures game == old(game).(currentScreen := BattleAttack)
    {
      game := game.(currentScreen := BattleAttack);
    }

    method AddFillerTapResult(result: FillerTapResult)
      requires Valid()
      modifies this
      ensures Valid()
      ensures game == old(game).(fillerTapResults := old(game.fillerTapResults) + [result])
    {
      game := game.(fillerTapResults := game.fillerTapResults + [result]);
    }

    /**
     * finishAttackPhase: record the turn's result, add its total to the score,
     * take the selected cards out of the pool and show the turn result.
     */
    method FinishAttackPhase(result: TurnResult)
      requires Valid()
      modifies this
      ensures Valid()
      ensures game == FinishTurn(old(game), result)
      ensures playedIds == old(playedIds) + UsedIds(old(game.selectedTurnCollocations).Values())
    {
      var usedCollocations := game.selectedTurnCollocations.Values();
      var newRemaining := UpdateRemainingCollocations(game.remainingCollocations, usedCollocations);
      FinishTurnKeepsInvariant(game, result, matchDeck, playedIds);
      playedIds := playedIds + UsedIds(usedCollocations);
      game := game.(turnResults := game.turnResults + [result], totalScore := game.totalScore + result.totalScore,
        remainingCollocations := newRemaining, currentScreen := TurnResultScreen);
    }

    /** proceedToNextTurn: the final result after the last turn, else the next opponent turn. */
    method ProceedToNextTurn()
      requires Valid()
      modifies this
      ensures Valid()
      ensures old(game.currentTurn) + 1 > old(game.maxTurns) ==>
        game == old(game).(isGameFinished := true, currentScreen := FinalResult)
      ensures old(game.currentTurn) + 1 <= old(game.maxTurns) ==>
        game == old(game).(currentTurn := old(game.currentTurn) + 1, currentScreen := EnemyTurn)
    {
      var nextTurn := game.currentTurn + 1;
      if nextTurn > game.maxTurns {
        game := game.(isGameFinished := true, currentScreen := FinalResult);
      } else {
        game := game.(currentTurn := nextTurn, currentScreen := EnemyTurn);
      }
    }

    /** resetGame: initialGameState, keeping only the deck and the opponent. */
    method ResetGame()
      requires Valid()
      modifies this
      ensures Valid()
      ensures game == ResetMatch(old(game))
    {
      ResetMatchKeepsInvariant(game, matchDeck, playedIds);
      game := InitialMatchState(game.enemyCharacter).(playerDeck := game.playerDeck);
      matchDeck := [];
      playedIds := {};
    }
  }
}
