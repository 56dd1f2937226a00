/**
 * The tutorial slice (lib/stores/tutorial.store.ts): the tutorial progress
 * record and its five setters. Each setter replaces the stored record by a
 * copy in which one field (two for skipping) differs.
 */
module TutorialStore {
  import opened Wrappers

  /** The three tutorial levels. */
  type TutorialLevel = l: int | 1 <= l <= 3 witness 1

  /** A tutorial step name; the step values are not part of this model, so it is any string. */
  type TutorialStep = string

  /** What a tutorial level unlocks and how it is timed (`timeLimit` in ms, `None` for no limit). */
  datatype LevelRestriction = LevelRestriction(
    strategySelection: bool,
    deckBuilder: bool,
    turnCount: nat,
    timeLimit: Option<nat>,
    showHints: bool,
    highlightRecommended: bool)

  datatype TutorialState = TutorialState(
    isActive: bool,
    currentLevel: TutorialLevel,
    completedLevels: seq<TutorialLevel>,
    currentStep: Option<TutorialStep>,
    skipped: bool,
    restrictions: map<TutorialLevel, LevelRestriction>)

  const LEVEL1_RESTRICTION := LevelRestriction(false, false, 1, None, true, true)
  const LEVEL2_RESTRICTION := LevelRestriction(true, false, 2, Some(10000), true, true)
  const LEVEL3_RESTRICTION := LevelRestriction(true, true, 2, Some(8000), true, false)

  /** initialTutorialState. */
  const INITIAL_TUTORIAL_STATE := TutorialState(
    false, 1, [], None, false,
    map[1 := LEVEL1_RESTRICTION, 2 := LEVEL2_RESTRICTION, 3 := LEVEL3_RESTRICTION])

  /** A new player starts outside the tutorial, at level 1, with nothing completed or skipped. */
  lemma InitialTutorialStateIsFresh()
    ensures var s := INITIAL_TUTORIAL_STATE;
      && !s.isActive && s.currentLevel == 1 && s.completedLevels == []
      && s.currentStep.None? && !s.skipped
  {
  }

  /**
   * Every level has a restriction. Level 1 is one untimed turn with neither
   * strategy selection nor deck building; levels 2 and 3 are two turns of
   * 10 and 8 seconds; deck building opens at level 3 only.
   */
  lemma InitialRestrictions()
    ensures var r := INITIAL_TUTORIAL_STATE.restrictions;
      && (forall level: TutorialLevel :: level in r)
      && r[1].turnCount == 1 && r[1].timeLimit == None
      && r[2].turnCount == 2 && r[2].timeLimit == Some(10000)
      && r[3].turnCount == 2 && r[3].timeLimit == Some(8000)
      && !r[1].strategySelection && r[2].strategySelection && r[3].strategySelection
      && !r[1].deckBuilder && !r[2].deckBuilder && r[3].deckBuilder
      && (forall level: TutorialLevel :: r[level].showHints)
  {
  }

  /** The zustand slice holding the tutorial record. */
  class TutorialSlice {
    var tutorialState: TutorialState

    constructor()
      ensures tutorialState == INITIAL_TUTORIAL_STATE
    {
      tutorialState := INITIAL_TUTORIAL_STATE;
    }

    /** setTutorialLevel: only `currentLevel` changes. */
    method SetTutorialLevel(level: TutorialLevel)
      modifies this
      ensures tutorialState == old(tutorialState).(currentLevel := level)
    {
      tutorialState := tutorialState.(currentLevel := level);
    }

    /** setTutorialStep: only `currentStep` changes. */
    method SetTutorialStep(step: Option<TutorialStep>)
      modifies this
      ensures tutorialState == old(tutorialState).(currentStep := step)
    {
      tutorialState := tutorialState.(currentStep := step);
    }

    /**
     * completeTutorialLevel: `level` is appended to `completedLevels` even when
     * it is already there; nothing else changes.
     */
    method CompleteTutorialLevel(level: TutorialLevel)
      modifies this
      ensures tutorialState.completedLevels == old(tutorialState.completedLevels) + [level]
      ensures |tutorialState.completedLevels| == |old(tutorialState.completedLevels)| + 1
      ensures tutorialState == old(tutorialState).(completedLevels := tutorialState.completedLevels)
    {
      tutorialState := tutorialState.(completedLevels := tutorialState.completedLevels + [level]);
    }

    /** skipTutorial: leaves the tutorial and marks it skipped; nothing else changes. */
    method SkipTutorial()
      modifies this
      ensures !tutorialState.isActive && tutorialState.skipped
      ensures tutorialState == old(tutorialState).(isActive := false, skipped := true)
    {
      tutorialState := tutorialState.(isActive := false, skipped := true);
    }

    /** setTutorialActive: only `isActive` changes. */
    method SetTutorialActive(active: bool)
      modifies this
      ensures tutorialState == old(tutorialState).(isActive := active)
    {
      tutorialState := tutorialState.(isActive := active);
    }
  }
}
