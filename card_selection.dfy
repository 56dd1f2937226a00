/**
 * The preparation phase (hooks/useCardSelection.ts): the slot the player has
 * highlighted, the countdown that moves to the attack when time runs out, and
 * the check that enough cards remain. The hook's state sits next to the game
 * store it reads and whose actions it calls.
 */
module CardSelection {
  import opened Wrappers
  import opened Types
  import opened Constants
  import opened TutorialStore
  import opened StoreRules
  import opened Store

  // ---------------------------------------------------------------------------
  // Time limit and countdown
  // ---------------------------------------------------------------------------

  /**
   * getTimeLimit, in seconds: an active tutorial level with a non-zero limit
   * uses that limit, every other case the 8 s preparation phase.
   */
  function TimeLimit(tutorial: TutorialState): (seconds: real)
    requires tutorial.isActive ==> tutorial.currentLevel in tutorial.restrictions
    ensures seconds > 0.0
    ensures !tutorial.isActive ==> seconds == PREPARE_PHASE_DURATION as real / 1000.0
  {
    if tutorial.isActive && tutorial.restrictions[tutorial.currentLevel].timeLimit.Some?
       && tutorial.restrictions[tutorial.currentLevel].timeLimit.value != 0 then
      tutorial.restrictions[tutorial.currentLevel].timeLimit.value as real / 1000.0
    else
      PREPARE_PHASE_DURATION as real / 1000.0
  }

  /**
   * With the shipped restrictions, the untimed level 1 falls back to 8 s,
   * level 2 gives 10 s and level 3 gives 8 s.
   */
  lemma TutorialTimeLimits()
    ensures TimeLimit(INITIAL_TUTORIAL_STATE) == 8.0
    ensures TimeLimit(INITIAL_TUTORIAL_STATE.(isActive := true, currentLevel := 1)) == 8.0
    ensures TimeLimit(INITIAL_TUTORIAL_STATE.(isActive := true, currentLevel := 2)) == 10.0
    ensures TimeLimit(INITIAL_TUTORIAL_STATE.(isActive := true, currentLevel := 3)) == 8.0
  {
    InitialRestrictions();
  }

  /** One second of the countdown: it drops by one and stops at 0. */
  function Tick(timeLeft: real): real {
    if timeLeft - 1.0 <= 0.0 then 0.0 else timeLeft - 1.0
  }

  /** The countdown after `n` seconds. */
  function TimeAfter(timeLeft: real, n: nat): real {
    if n == 0 then timeLeft else Tick(TimeAfter(timeLeft, n - 1))
  }

  /** After `n` seconds, `n` less is left, or nothing once `n` reaches the limit. */
  lemma {:induction false} CountdownRunsOut(timeLeft: real, n: nat)
    requires timeLeft >= 0.0
    ensures TimeAfter(timeLeft, n) == if n as real >= timeLeft then 0.0 else timeLeft - n as real
  {
    if n > 0 {
      CountdownRunsOut(timeLeft, n - 1);
    }
  }

  // ---------------------------------------------------------------------------
  // Slot highlighting
  // ---------------------------------------------------------------------------

  /** The slots in display order. */
  const SLOTS: seq<SlotName> := [Slot1, Slot2, Slot3, Slot4]

  function SlotIndex(slot: SlotName): (i: nat)
    ensures i < |SLOTS| && SLOTS[i] == slot
  {
    match slot
    case Slot1 => 0
    case Slot2 => 1
    case Slot3 => 2
    case Slot4 => 3
  }

  /** The slot after `slot` in display order; there is none after the fourth. */
  function NextSlot(slot: SlotName): (r: Option<SlotName>)
    ensures r.None? <==> slot == Slot4
    ensures r.Some? ==> SlotIndex(r.value) == SlotIndex(slot) + 1
  {
    var i := SlotIndex(slot);
    if i < |SLOTS| - 1 then Some(SLOTS[i + 1]) else None
  }

  /** The turn's slots together with the highlighted slot. */
  datatype Selection = Selection(slots: SelectedTurnCollocations, highlighted: Option<SlotName>)

  /** handleSlotClick: a filled slot is cleared and nothing stays highlighted; an empty one is highlighted. */
  function SlotClick(sel: Selection, slot: SlotName): Selection {
    if sel.slots.Get(slot).Some? then Selection(StoreRules.ClearSlot(sel.slots, slot), None)
    else sel.(highlighted := Some(slot))
  }

  /**
   * handleCardClick: with a slot highlighted, the card goes into it (unless it
   * is already in another slot), and the highlight moves to the next slot if
   * that one is empty, otherwise it goes away. Without a highlight nothing happens.
   */
  function CardClick(sel: Selection, c: Collocation): Selection {
    if sel.highlighted.None? then sel
    else
      var slot := sel.highlighted.value;
      var next := NextSlot(slot);
      Selection(
        SelectForSlot(sel.slots, slot, c),
        if next.Some? && sel.slots.Get(next.value).None? then next else None)
  }

  /** The highlighted slot, if any, is an empty one. */
  predicate HighlightIsEmpty(sel: Selection) {
    sel.highlighted.Some? ==> sel.slots.Get(sel.highlighted.value).None?
  }

  /** Clicking a slot leaves the highlight on an empty slot or nowhere. */
  lemma SlotClickKeepsHighlightEmpty(sel: Selection, slot: SlotName)
    ensures HighlightIsEmpty(SlotClick(sel, slot))
    ensures SlotClick(sel, slot).highlighted.Some? <==> sel.slots.Get(slot).None?
    ensures sel.slots.Get(slot).Some? ==> SlotClick(sel, slot).slots.Get(slot).None?
  {
  }

  /**
   * Clicking a card never leaves the highlight on a filled slot; the highlight
   * only moves forward, to the slot right after the one just used.
   */
  lemma CardClickKeepsHighlightEmpty(sel: Selection, c: Collocation)
    requires HighlightIsEmpty(sel)
    ensures HighlightIsEmpty(CardClick(sel, c))
    ensures var r := CardClick(sel, c);
      r.highlighted.Some? ==> sel.highlighted.Some? && SlotIndex(r.highlighted.value) == SlotIndex(sel.highlighted.value) + 1
  {
    if sel.highlighted.Some? {
      var slot := sel.highlighted.value;
      var next := NextSlot(slot);
      if next.Some? {
        assert next.value != slot;
        assert SelectForSlot(sel.slots, slot, c).Get(next.value) == sel.slots.Get(next.value);
      }
    }
  }

  /**
   * Starting with the first slot highlighted on an empty board, four clicks on
   * four different cards fill the slots in order and leave nothing highlighted.
   */
  lemma FourClicksFillTheSlots(c1: Collocation, c2: Collocation, c3: Collocation, c4: Collocation)
    requires c1.id != c2.id && c1.id != c3.id && c1.id != c4.id
    requires c2.id != c3.id && c2.id != c4.id && c3.id != c4.id
    ensures var start := Selection(EMPTY_SLOTS, Some(Slot1));
      var r := CardClick(CardClick(CardClick(CardClick(start, c1), c2), c3), c4);
      && r.slots == SelectedTurnCollocations(Some(c1), Some(c2), Some(c3), Some(c4))
      && AllSlotsFilled(r.slots) && r.highlighted.None?
  {
    var s0 := Selection(EMPTY_SLOTS, Some(Slot1));
    var s1 := CardClick(s0, c1);
    assert !IsAlreadySelected(EMPTY_SLOTS, c1.id);
    assert s1 == Selection(SelectedTurnCollocations(Some(c1), None, None, None), Some(Slot2));
    var s2 := CardClick(s1, c2);
    assert !IsAlreadySelected(s1.slots, c2.id);
    assert s2 == Selection(SelectedTurnCollocations(Some(c1), Some(c2), None, None), Some(Slot3));
    var s3 := CardClick(s2, c3);
    assert !IsAlreadySelected(s2.slots, c3.id);
    assert s3 == Selection(SelectedTurnCollocations(Some(c1), Some(c2), Some(c3), None), Some(Slot4));
    var s4 := CardClick(s3, c4);
    assert !IsAlreadySelected(s3.slots, c4.id);
    assert s4.slots == SelectedTurnCollocations(Some(c1), Some(c2), Some(c3), Some(c4));
    AllSlotsFilledMeansEverySlot(s4.slots);
  }

  // ---------------------------------------------------------------------------
  // The hook's state
  // ---------------------------------------------------------------------------

  /**
   * useCardSelection mounted over `store`. The one-second interval is the
   * event `TimerTick`; the resource effect is `CheckResources`.
   */
  class CardSelectionHook {
    var selectedSlot: Option<SlotName>
    var timeLeft: real
    const store: GameStore

    /** The store is consistent, the highlighted slot is empty and the countdown is not negative. */
    ghost predicate Valid()
      reads this, store
    {
      && store.Valid()
      && HighlightIsEmpty(Selection(store.game.selectedTurnCollocations, selectedSlot))
      && timeLeft >= 0.0
    }

    constructor(store: GameStore)
      requires store.Valid()
      requires store.tutorialState.isActive ==> store.tutorialState.currentLevel in store.tutorialState.restrictions
      ensures Valid()
      ensures this.store == store && selectedSlot == None
      ensures timeLeft == TimeLimit(store.tutorialState)
    {
      this.store := store;
      selectedSlot := None;
      timeLeft := TimeLimit(store.tutorialState);
    }

    /** The resource check: fewer than four cards left is the resource-depleted error. */
    method CheckResources()
      requires Valid()
      modifies store
      ensures Valid()
      ensures |old(store.game.remainingCollocations.all)| < TURN_COLLOCATIONS_COUNT ==>
        store.game == old(store.game).(currentScreen := Error) && store.errorType == Some(ResourceDepleted)
      ensures |old(store.game.remainingCollocations.all)| >= TURN_COLLOCATIONS_COUNT ==>
        store.game == old(store.game) && store.errorType == old(store.errorType)
      ensures store.tutorialState == old(store.tutorialState) && store.uiSupport == old(store.uiSupport)
    {
      if |store.game.remainingCollocations.all| < TURN_COLLOCATIONS_COUNT {
        store.SetError(Some(ResourceDepleted));
      }
    }

    /**
     * One second passes. When the time is up the countdown stays at 0 and the
     * attack starts, but only if all four slots are filled.
     */
    method TimerTick()
      requires Valid()
      modifies this, store
      ensures Valid()
      ensures timeLeft == Tick(old(timeLeft)) && selectedSlot == old(selectedSlot)
      ensures store.game == (if old(timeLeft) - 1.0 <= 0.0 && AllSlotsFilled(old(store.game.selectedTurnCollocations))
        then old(store.game).(currentScreen := BattleAttack) else old(store.game))
      ensures store.Session() == old(store.Session())
    {
      var newTime := timeLeft - 1.0;
      if newTime <= 0.0 {
        var ready := store.CanProceedToAttack();
        AllSlotsFilledMeansEverySlot(store.game.selectedTurnCollocations);
        if ready {
          store.ProceedToAttack();
        }
        timeLeft := 0.0;
      } else {
        timeLeft := newTime;
      }
    }

    /** handleSlotClick on the store's slots. */
    method HandleSlotClick(slot: SlotName)
      requires Valid()
      modifies this, store
      ensures Valid()
      ensures Selection(store.game.selectedTurnCollocations, selectedSlot)
        == SlotClick(Selection(old(store.game.selectedTurnCollocations), old(selectedSlot)), slot)
      ensures store.game == old(store.game).(selectedTurnCollocations := store.game.selectedTurnCollocations)
      ensures store.Session() == old(store.Session()) && timeLeft == old(timeLeft)
    {
      SlotClickKeepsHighlightEmpty(Selection(store.game.selectedTurnCollocations, selectedSlot), slot);
      if store.game.selectedTurnCollocations.Get(slot).Some? {
        store.ClearSlot(slot);
        selectedSlot := None;
      } else {
        selectedSlot := Some(slot);
      }
    }

    /** handleCardClick on the store's slots. */
    method HandleCardClick(c: Collocation)
      requires Valid()
      modifies this, store
      ensures Valid()
      ensures Selection(store.game.selectedTurnCollocations, selectedSlot)
        == CardClick(Selection(old(store.game.selectedTurnCollocations), old(selectedSlot)), c)
      ensures store.game == old(store.game).(selectedTurnCollocations := store.game.selectedTurnCollocations)
      ensures store.Session() == old(store.Session()) && timeLeft == old(timeLeft)
    {
      var before := store.game.selectedTurnCollocations;
      CardClickKeepsHighlightEmpty(Selection(before, selectedSlot), c);
      if selectedSlot.Some? {
        var slot := selectedSlot.value;
        store.SelectCollocationForSlot(slot, c);
        var next := NextSlot(slot);
        if next.Some? {
          if before.Get(next.value).None? {
            selectedSlot := next;
          } else {
            selectedSlot := None;
          }
        } else {
          selectedSlot := None;
        }
      }
    }
  }
}
