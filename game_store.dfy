/**
 * The game store (lib/store.ts): one record holding the match, the tutorial
 * progress, the support settings and the error state, and the actions that
 * update it. zustand's `set` replaces the record by a copy with some fields
 * overwritten; here the match fields form one record field, `game`, that
 * each action reassigns. `Valid()` is the invariant all actions keep: a legal
 * deck, no card id in two slots, the turn within [1, maxTurns], the total
 * score equal to the sum of the turn totals, and the pool equal to the
 * match's deck minus every card played since it started.
 */
module Store {
  import opened Wrappers
  import opened Types
  import opened Constants
  import opened GameLogic
  import opened TutorialStore
  import opened UIStore
  import opened StoreRules
  import EnemyData

  class GameStore {
    var game: MatchState
    var errorType: Option<ErrorType>
    var tutorialState: TutorialState
    var uiSupport: UISupportSettings

    /** The deck the current match was started from. */
    ghost var matchDeck: seq<Collocation>
    /** The ids of the cards played in the current match. */
    ghost var playedIds: set<string>

    /** The fields outside the match: error, tutorial progress and support settings. */
    function Session(): (Option<ErrorType>, TutorialState, UISupportSettings)
      reads this
    {
      (errorType, tutorialState, uiSupport)
    }

    ghost predicate Valid()
      reads this
    {
      MatchInvariant(game, matchDeck, playedIds)
    }

    constructor()
      ensures Valid()
      ensures game == InitialMatchState(EnemyData.GetDefaultEnemy())
      ensures errorType == None && tutorialState == INITIAL_TUTORIAL_STATE && uiSupport == INITIAL_UI_SUPPORT
    {
      var enemy := EnemyData.GetDefaultEnemy();
      InitialMatchStateIsValid(enemy);
      game := InitialMatchState(enemy);
      errorType := None;
      tutorialState := INITIAL_TUTORIAL_STATE;
      uiSupport := INITIAL_UI_SUPPORT;
      matchDeck := [];
      playedIds := {};
    }

    method SetScreen(screen: GameScreen)
      requires Valid()
      modifies this
      ensures Valid()
      ensures game == old(game).(currentScreen := screen) && Session() == old(Session())
    {
      game := game.(currentScreen := screen);
    }

    /** toggleCollocationInDeck: remove the card's id, or append it if the deck has room. */
    method ToggleCollocationInDeck(c: Collocation)
      requires Valid()
      modifies this
      ensures Valid()
      ensures game == old(game).(playerDeck := ToggleInDeck(old(game.playerDeck), c)) && Session() == old(Session())
      ensures |game.playerDeck| <= MAX_DECK_SIZE
    {
      ToggleKeepsDeckValid(game.playerDeck, c);
      var isInDeck := IsInDeck(game.playerDeck, c.id);
      if isInDeck {
        game := game.(playerDeck := RemoveIds(game.playerDeck, {c.id}));
      } else if |game.playerDeck| < MAX_DECK_SIZE {
        game := game.(playerDeck := game.playerDeck + [c]);
      }
    }

    /** isCollocationInDeck. */
    method IsCollocationInDeck(id: string) returns (inDeck: bool)
      ensures inDeck <==> exists c :: c in game.playerDeck && c.id == id
    {
      inDeck := IsInDeck(game.playerDeck, id);
    }

    /** canAddToDeck. */
    method CanAddToDeck() returns (canAdd: bool)
      ensures canAdd <==> |game.playerDeck| < MAX_DECK_SIZE
    {
      canAdd := |game.playerDeck| < MAX_DECK_SIZE;
    }

    /** startGame: a fresh pool from the deck, turn 1, no results, the opponent's turn. */
    method StartGame()
      requires Valid()
      modifies this
      ensures Valid()
      ensures game == StartMatch(old(game)) && Session() == old(Session())
      ensures matchDeck == game.playerDeck && playedIds == {}
    {
      StartMatchKeepsInvariant(game, matchDeck, playedIds);
      var remaining := InitializeRemainingCollocations(game.playerDeck);
      matchDeck := game.playerDeck;
      playedIds := {};
      game := game.(isGameStarted := true, currentTurn := 1, remainingCollocations := remaining,
        currentScreen := EnemyTurn, turnResults := [], totalScore := 0, isGameFinished := false);
    }

    /**
     * generateEnemyTurn: the fixed tutorial raps in tutorial levels 1 and 2,
     * otherwise the rap at `pick` (the random draw) for the current turn.
     */
    method GenerateEnemyTurn(pick: nat)
      requires Valid()
      requires pick < |EnemyRapsFor(game.currentTurn)|
      modifies this
      ensures Valid()
      ensures game == old(game).(currentEnemyTurnInfo := Some(EnemyTurnFor(tutorialState, game.currentTurn, pick)))
      ensures Session() == old(Session())
    {
      game := game.(currentEnemyTurnInfo := Some(EnemyTurnFor(tutorialState, game.currentTurn, pick)));
    }

    /** proceedToPlayerPrepare: empty slots, no taps, the prepare screen. */
    method ProceedToPlayerPrepare()
      requires Valid()
      modifies this
      ensures Valid()
      ensures game == old(game).(currentScreen := BattlePrepare, selectedTurnCollocations := EMPTY_SLOTS, fillerTapResults := [])
      ensures Session() == old(Session())
    {
      game := game.(currentScreen := BattlePrepare, selectedTurnCollocations := EMPTY_SLOTS, fillerTapResults := []);
    }

    /** selectCollocationForSlot: refused when the card's id is in any slot. */
    method SelectCollocationForSlot(slot: SlotName, c: Collocation)
      requires Valid()
      modifies this
      ensures Valid()
      ensures game == old(game).(selectedTurnCollocations := SelectForSlot(old(game.selectedTurnCollocations), slot, c))
      ensures Session() == old(Session())
    {
      SelectKeepsSlotIdsDistinct(game.selectedTurnCollocations, slot, c);
      var isAlreadySelected := IsAlreadySelected(game.selectedTurnCollocations, c.id);
      if !isAlreadySelected {
        game := game.(selectedTurnCollocations := game.selectedTurnCollocations.With(slot, Some(c)));
      }
    }

    /** clearSlot. */
    method ClearSlot(slot: SlotName)
      requires Valid()
      modifies this
      ensures Valid()
      ensures game == old(game).(selectedTurnCollocations := StoreRules.ClearSlot(old(game.selectedTurnCollocations), slot))
      ensures Session() == old(Session())
    {
      ClearKeepsSlotIdsDistinct(game.selectedTurnCollocations, slot);
      game := game.(selectedTurnCollocations := game.selectedTurnCollocations.With(slot, None));
    }

    /** canProceedToAttack: every slot holds a card. */
    method CanProceedToAttack() returns (ready: bool)
      ensures ready <==> forall s :: game.selectedTurnCollocations.Get(s).Some?
    {
      AllSlotsFilledMeansEverySlot(game.selectedTurnCollocations);
      var slots := game.selectedTurnCollocations;
      ready := slots.slot1.Some? && slots.slot2.Some? && slots.slot3.Some? && slots.slot4.Some?;
    }

    method ProceedToAttack()
      requires Valid()
      modifies this
      ensures Valid()
      ensures game == old(game).(currentScreen := BattleAttack) && Session() == old(Session())
    {
      game := game.(currentScreen := BattleAttack);
    }

    method AddFillerTapResult(result: FillerTapResult)
      requires Valid()
      modifies this
      ensures Valid()
      ensures game == old(game).(fillerTapResults := old(game.fillerTapResults) + [result])
      ensures Session() == old(Session())
    {
      game := game.(fillerTapResults := game.fillerTapResults + [result]);
    }

    /**
     * finishAttackPhase: record the turn's result, add its total to the score,
     * take the selected cards out of the pool and show the turn result.
     */
    method FinishAttackPhase(result: TurnResult)
      requires Valid()
      modifies this
      ensures Valid()
      ensures game == FinishTurn(old(game), result) && Session() == old(Session())
      ensures playedIds == old(playedIds) + UsedIds(old(game.selectedTurnCollocations).Values())
    {
      var usedCollocations := game.selectedTurnCollocations.Values();
      var newRemaining := UpdateRemainingCollocations(game.remainingCollocations, usedCollocations);
      FinishTurnKeepsInvariant(game, result, matchDeck, playedIds);
      playedIds := playedIds + UsedIds(usedCollocations);
      game := game.(turnResults := game.turnResults + [result], totalScore := game.totalScore + result.totalScore,
        remainingCollocations := newRemaining, currentScreen := TurnResultScreen);
    }

    /** proceedToNextTurn: the final result after the last turn, else the next opponent turn. */
    method ProceedToNextTurn()
      requires Valid()
      modifies this
      ensures Valid()
      ensures old(game.currentTurn) + 1 > old(game.maxTurns) ==>
        game == old(game).(isGameFinished := true, currentScreen := FinalResult)
      ensures old(game.currentTurn) + 1 <= old(game.maxTurns) ==>
        game == old(game).(currentTurn := old(game.currentTurn) + 1, currentScreen := EnemyTurn)
      ensures Session() == old(Session())
    {
      var nextTurn := game.currentTurn + 1;
      if nextTurn > game.maxTurns {
        game := game.(isGameFinished := true, currentScreen := FinalResult);
      } else {
        game := game.(currentTurn := nextTurn, currentScreen := EnemyTurn);
      }
    }

    /**
     * resetGame: the initial state, keeping the deck, the opponent, the
     * tutorial progress and the settings; the error is cleared.
     */
    method ResetGame()
      requires Valid()
      modifies this
      ensures Valid()
      ensures game == ResetMatch(old(game))
      ensures Session() == (None, old(tutorialState), old(uiSupport))
    {
      ResetMatchKeepsInvariant(game, matchDeck, playedIds);
      game := InitialMatchState(game.enemyCharacter).(playerDeck := game.playerDeck);
      errorType := None;
      matchDeck := [];
      playedIds := {};
    }

    method SetTutorialLevel(level: TutorialLevel)
      requires Valid()
      modifies this
      ensures Valid()
      ensures game == old(game)
      ensures Session() == (old(errorType), old(tutorialState).(currentLevel := level), old(uiSupport))
    {
      tutorialState := tutorialState.(currentLevel := level);
    }

    method SetTutorialStep(step: Option<TutorialStep>)
      requires Valid()
      modifies this
      ensures Valid()
      ensures game == old(game)
      ensures Session() == (old(errorType), old(tutorialState).(currentStep := step), old(uiSupport))
    {
      tutorialState := tutorialState.(currentStep := step);
    }

    /** completeTutorialLevel: appended even when already completed. */
    method CompleteTutorialLevel(level: TutorialLevel)
      requires Valid()
      modifies this
      ensures Valid()
      ensures game == old(game)
      ensures tutorialState.completedLevels == old(tutorialState.completedLevels) + [level]
      ensures Session() == (old(errorType), old(tutorialState).(completedLevels := tutorialState.completedLevels), old(uiSupport))
    {
      tutorialState := tutorialState.(completedLevels := tutorialState.completedLevels + [level]);
    }

    method SkipTutorial()
      requires Valid()
      modifies this
      ensures Valid()
      ensures game == old(game)
      ensures Session() == (old(errorType), old(tutorialState).(isActive := false, skipped := true), old(uiSupport))
    {
      tutorialState := tutorialState.(isActive := false, skipped := true);
    }

    method SetTutorialActive(active: bool)
      requires Valid()
      modifies this
      ensures Valid()
      ensures game == old(game)
      ensures Session() == (old(errorType), old(tutorialState).(isActive := active), old(uiSupport))
    {
      tutorialState := tutorialState.(isActive := active);
    }

    /** updateUISupportSettings: only the fields present in `partial` change. */
    method UpdateUISupportSettings(partial: PartialSettings)
      requires Valid()
      modifies this
      ensures Valid()
      ensures game == old(game)
      ensures Session() == (old(errorType), old(tutorialState), Merge(old(uiSupport), partial))
    {
      uiSupport := Merge(uiSupport, partial);
    }

    /** setError: record the error; a non-null one also switches to the error screen. */
    method SetError(e: Option<ErrorType>)
      requires Valid()
      modifies this
      ensures Valid()
      ensures game == old(game).(currentScreen := ScreenAfterError(e, old(game.currentScreen)))
      ensures Session() == (e, old(tutorialState), old(uiSupport))
    {
      errorType := e;
      game := game.(currentScreen := ScreenAfterError(e, game.currentScreen));
    }
  }
}
