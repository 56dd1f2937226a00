/**
 * The rules that the game store (lib/store.ts) and its game slice
 * (lib/stores/game.store.ts) apply in their actions: deck building under the
 * size cap, the four selection slots, the running score, the fixed opponent
 * raps of the tutorial, and the state record the actions update.
 */
module StoreRules {
  import opened Wrappers
  import opened Types
  import opened Constants
  import opened Tally
  import opened GameLogic
  import opened CollocationsData
  import opened TutorialStore

  // ---------------------------------------------------------------------------
  // Deck building
  // ---------------------------------------------------------------------------

  /** `deck.some(c => c.id === id)`. */
  predicate IsInDeck(deck: seq<Collocation>, id: string) {
    exists c :: c in deck && c.id == id
  }

  /** A deck the player can hold: at most MAX_DECK_SIZE cards with pairwise distinct ids. */
  predicate DeckValid(deck: seq<Collocation>) {
    |deck| <= MAX_DECK_SIZE && NoDuplicates(IdsOf(deck))
  }

  /**
   * toggleCollocationInDeck: a card whose id is in the deck is taken out
   * (with every card of that id); otherwise it is appended when the deck
   * has room, and the deck is left as it is when full.
   */
  function ToggleInDeck(deck: seq<Collocation>, c: Collocation): (r: seq<Collocation>)
    ensures IsInDeck(deck, c.id) ==> !IsInDeck(r, c.id) && forall x :: x in r <==> x in deck && x.id != c.id
    ensures IsInDeck(deck, c.id) ==> |r| < |deck|
    ensures !IsInDeck(deck, c.id) && |deck| < MAX_DECK_SIZE ==> r == deck + [c]
    ensures !IsInDeck(deck, c.id) && |deck| >= MAX_DECK_SIZE ==> r == deck
  {
    if IsInDeck(deck, c.id) then
      var x :| x in deck && x.id == c.id;
      RemoveOneIdShrinks(deck, x);
      RemoveIds(deck, {c.id})
    else if |deck| >= MAX_DECK_SIZE then deck
    else deck + [c]
  }

  /** Removing the id of a member drops at least that member. */
  lemma {:induction false} RemoveOneIdShrinks(deck: seq<Collocation>, x: Collocation)
    requires x in deck
    ensures |RemoveIds(deck, {x.id})| < |deck|
  {
    if deck[0] != x {
      RemoveOneIdShrinks(deck[1..], x);
    }
  }

  /** No two cards share an id, stated on the cards themselves. */
  predicate IdsDistinct(cards: seq<Collocation>) {
    forall i, j :: 0 <= i < j < |cards| ==> cards[i].id != cards[j].id
  }

  lemma IdsDistinctIsNoDuplicates(cards: seq<Collocation>)
    ensures IdsDistinct(cards) <==> NoDuplicates(IdsOf(cards))
  {
    var ids := IdsOf(cards);
    assert forall i :: 0 <= i < |cards| ==> ids[i] == cards[i].id;
  }

  /** Filtering keeps the ids distinct. */
  lemma {:induction false} RemoveIdsKeepsIdsDistinct(deck: seq<Collocation>, ids: set<string>)
    requires IdsDistinct(deck)
    ensures IdsDistinct(RemoveIds(deck, ids))
  {
    if deck != [] {
      var tail := deck[1..];
      RemoveIdsKeepsIdsDistinct(tail, ids);
      if deck[0].id !in ids {
        var rest := RemoveIds(tail, ids);
        assert RemoveIds(deck, ids) == [deck[0]] + rest;
        forall x | x in tail ensures x.id != deck[0].id {
          var k :| 0 <= k < |tail| && tail[k] == x;
          assert deck[k + 1] == x;
        }
      }
    }
  }

  /** Toggling keeps the deck within the cap and its ids distinct. */
  lemma ToggleKeepsDeckValid(deck: seq<Collocation>, c: Collocation)
    requires DeckValid(deck)
    ensures DeckValid(ToggleInDeck(deck, c))
  {
    var r := ToggleInDeck(deck, c);
    IdsDistinctIsNoDuplicates(deck);
    IdsDistinctIsNoDuplicates(r);
    if IsInDeck(deck, c.id) {
      RemoveIdsKeepsIdsDistinct(deck, {c.id});
    } else if |deck| < MAX_DECK_SIZE {
      forall i, j | 0 <= i < j < |r| ensures r[i].id != r[j].id {
        if j == |deck| {
          assert deck[i] in deck;
        }
      }
    }
  }

  lemma {:induction false} RemoveAbsentIds(cards: seq<Collocation>, ids: set<string>)
    requires forall x :: x in cards ==> x.id !in ids
    ensures RemoveIds(cards, ids) == cards
  {
    if cards != [] {
      assert cards[0] in cards;
      RemoveAbsentIds(cards[1..], ids);
    }
  }

  lemma {:induction false} RemoveIdsAppend(a: seq<Collocation>, b: seq<Collocation>, ids: set<string>)
    ensures RemoveIds(a + b, ids) == RemoveIds(a, ids) + RemoveIds(b, ids)
  {
    if a == [] {
      assert a + b == b;
    } else {
      assert (a + b)[1..] == a[1..] + b;
      RemoveIdsAppend(a[1..], b, ids);
    }
  }

  /** Adding a card and toggling it again gives the old deck back. */
  lemma ToggleTwiceRestores(deck: seq<Collocation>, c: Collocation)
    requires !IsInDeck(deck, c.id) && |deck| < MAX_DECK_SIZE
    ensures ToggleInDeck(ToggleInDeck(deck, c), c) == deck
  {
    var added := deck + [c];
    assert c in added;
    RemoveIdsAppend(deck, [c], {c.id});
    RemoveAbsentIds(deck, {c.id});
    assert RemoveIds([c], {c.id}) == [];
  }

  // ---------------------------------------------------------------------------
  // Selection slots
  // ---------------------------------------------------------------------------

  /** `Object.values(slots).some(c => c?.id === id)`. */
  predicate IsAlreadySelected(slots: SelectedTurnCollocations, id: string) {
    exists o :: o in slots.Values() && o.Some? && o.value.id == id
  }

  /** No card id sits in two slots. */
  predicate SlotIdsDistinct(slots: SelectedTurnCollocations) {
    forall s, t :: s != t && slots.Get(s).Some? && slots.Get(t).Some? ==> slots.Get(s).value.id != slots.Get(t).value.id
  }

  /** canProceedToAttack: all four slots hold a card. */
  predicate AllSlotsFilled(slots: SelectedTurnCollocations) {
    slots.slot1.Some? && slots.slot2.Some? && slots.slot3.Some? && slots.slot4.Some?
  }

  lemma AllSlotsFilledMeansEverySlot(slots: SelectedTurnCollocations)
    ensures AllSlotsFilled(slots) <==> forall s :: slots.Get(s).Some?
  {
    if forall s :: slots.Get(s).Some? {
      assert slots.Get(Slot1).Some? && slots.Get(Slot2).Some? && slots.Get(Slot3).Some? && slots.Get(Slot4).Some?;
    }
  }

  /**
   * selectCollocationForSlot: a card whose id is already in any slot is
   * refused; otherwise it goes into the named slot, replacing what was there.
   */
  function SelectForSlot(slots: SelectedTurnCollocations, slot: SlotName, c: Collocation): (r: SelectedTurnCollocations)
    ensures IsAlreadySelected(slots, c.id) ==> r == slots
    ensures !IsAlreadySelected(slots, c.id) ==>
      r.Get(slot) == Some(c) && forall other :: other != slot ==> r.Get(other) == slots.Get(other)
  {
    if IsAlreadySelected(slots, c.id) then slots else slots.With(slot, Some(c))
  }

  lemma SlotValuesCoverSlots(slots: SelectedTurnCollocations, s: SlotName)
    ensures slots.Get(s) in slots.Values()
  {
  }

  /** Selecting keeps every card id in at most one slot. */
  lemma SelectKeepsSlotIdsDistinct(slots: SelectedTurnCollocations, slot: SlotName, c: Collocation)
    requires SlotIdsDistinct(slots)
    ensures SlotIdsDistinct(SelectForSlot(slots, slot, c))
  {
    var r := SelectForSlot(slots, slot, c);
    if !IsAlreadySelected(slots, c.id) {
      forall s, t | s != t && r.Get(s).Some? && r.Get(t).Some?
        ensures r.Get(s).value.id != r.Get(t).value.id
      {
        if s == slot {
          SlotValuesCoverSlots(slots, t);
        } else if t == slot {
          SlotValuesCoverSlots(slots, s);
        }
      }
    }
  }

  /** clearSlot: the named slot is emptied and the others are kept. */
  function ClearSlot(slots: SelectedTurnCollocations, slot: SlotName): (r: SelectedTurnCollocations)
    ensures r.Get(slot).None? && forall other :: other != slot ==> r.Get(other) == slots.Get(other)
    ensures !AllSlotsFilled(r)
  {
    slots.With(slot, None)
  }

  lemma ClearKeepsSlotIdsDistinct(slots: SelectedTurnCollocations, slot: SlotName)
    requires SlotIdsDistinct(slots)
    ensures SlotIdsDistinct(ClearSlot(slots, slot))
  {
  }

  /** Emptying a slot and selecting a fresh card into it changes only that slot. */
  lemma ClearThenSelect(slots: SelectedTurnCollocations, slot: SlotName, c: Collocation)
    requires !IsAlreadySelected(slots, c.id)
    ensures SelectForSlot(ClearSlot(slots, slot), slot, c) == slots.With(slot, Some(c))
  {
  }

  /** The ids in play are the ids of the four slot cards. */
  lemma UsedIdsOfFilledSlots(slots: SelectedTurnCollocations)
    requires AllSlotsFilled(slots)
    ensures UsedIds(slots.Values()) ==
      {slots.slot1.value.id, slots.slot2.value.id, slots.slot3.value.id, slots.slot4.value.id}
  {
    var vs := slots.Values();
    forall x | x in UsedIds(vs)
      ensures x in {slots.slot1.value.id, slots.slot2.value.id, slots.slot3.value.id, slots.slot4.value.id}
    {
      var y :| y in NonNull(vs) && y.id == x;
      assert Some(y) in vs;
    }
    assert Some(slots.slot1.value) in vs && Some(slots.slot2.value) in vs;
    assert Some(slots.slot3.value) in vs && Some(slots.slot4.value) in vs;
  }

  lemma FourDistinctIds(w: string, x: string, y: string, z: string)
    requires w != x && w != y && w != z && x != y && x != z && y != z
    ensures |{w, x, y, z}| == 4
  {
    var s1 := {w};
    var s2 := s1 + {x};
    var s3 := s2 + {y};
    assert |s2| == 2 by { assert x !in s1; }
    assert |s3| == 3 by { assert y !in s2; }
    assert |s3 + {z}| == 4 by { assert z !in s3; }
    assert {w, x, y, z} == s3 + {z};
  }

  /** Four filled slots with distinct ids put four cards, with four ids, into play. */
  lemma FilledSlotsUseFourCards(slots: SelectedTurnCollocations)
    requires AllSlotsFilled(slots) && SlotIdsDistinct(slots)
    ensures |NonNull(slots.Values())| == 4
    ensures |UsedIds(slots.Values())| == 4
  {
    NonNullOfAllSome(slots.Values());
    UsedIdsOfFilledSlots(slots);
    var a, b, c, d := slots.slot1.value, slots.slot2.value, slots.slot3.value, slots.slot4.value;
    assert slots.Get(Slot1).value == a && slots.Get(Slot2).value == b;
    assert slots.Get(Slot3).value == c && slots.Get(Slot4).value == d;
    FourDistinctIds(a.id, b.id, c.id, d.id);
  }

  // ---------------------------------------------------------------------------
  // Score
  // ---------------------------------------------------------------------------

  /** The sum of the turn totals. */
  function SumScores(results: seq<TurnResult>): int {
    if results == [] then 0
    else SumScores(results[..|results| - 1]) + results[|results| - 1].totalScore
  }

  lemma SumScoresAppend(results: seq<TurnResult>, r: TurnResult)
    ensures SumScores(results + [r]) == SumScores(results) + r.totalScore
  {
    assert (results + [r])[..|results|] == results;
  }

  /** A match of turns each scoring within [0, 250] totals within [0, 250 per turn]. */
  lemma {:induction false} SumScoresBounds(results: seq<TurnResult>)
    requires forall i :: 0 <= i < |results| ==> 0 <= results[i].totalScore <= 250
    ensures 0 <= SumScores(results) <= 250 * |results|
  {
    if results != [] {
      SumScoresBounds(results[..|results| - 1]);
    }
  }

  // ---------------------------------------------------------------------------
  // Opponent raps (lib/enemy-raps.ts)
  // ---------------------------------------------------------------------------

  /** TUTORIAL_ENEMY_RAP: the fixed rap of tutorial level 1. */
  const TUTORIAL_ENEMY_RAP := EnemyTurnInfo("お前のスキルはまだまだだ", Attack, B, "挑発的", "〜あ系（B系）で返そう")

  /** TUTORIAL_LEVEL2_RAPS: the fixed raps of the two turns of tutorial level 2. */
  const TUTORIAL_LEVEL2_TURN1 := EnemyTurnInfo("お前のライムは薄っぺらい", Attack, A, "批判的", "〜い系（A系）でチェーンを狙おう")
  const TUTORIAL_LEVEL2_TURN2 := EnemyTurnInfo("俺のフロウは止まらん", Boast, C, "自信満々", "タイプ相性を考えよう")

  const ENEMY_RAPS_TURN1: seq<EnemyTurnInfo> := [
    EnemyTurnInfo("お前のライムはぬるま湯みたい", Attack, A, "挑発的", "〜い系（A系）"),
    EnemyTurnInfo("俺の前じゃお前は赤ん坊", Attack, B, "見下している", "〜あ系（B系）"),
    EnemyTurnInfo("お前のスキルはまだまだ", Attack, B, "批判的", "〜あ系（B系）")
  ]

  const ENEMY_RAPS_TURN2: seq<EnemyTurnInfo> := [
    EnemyTurnInfo("お前の言葉は軽い", Counter, A, "反撃的", "〜い系（A系）"),
    EnemyTurnInfo("俺のフロウは止まらん", Boast, C, "自信満々", "〜ん系（C系）"),
    EnemyTurnInfo("まだまだ修行が足りん", Attack, C, "辛辣", "〜ん系（C系）")
  ]

  /** The raps `getRandomEnemyRap(turn)` draws from: turn 1's list for turn 1, turn 2's otherwise. */
  function EnemyRapsFor(turn: int): (raps: seq<EnemyTurnInfo>)
    ensures |raps| == 3
  {
    if turn == 1 then ENEMY_RAPS_TURN1 else ENEMY_RAPS_TURN2
  }

  /**
   * generateEnemyTurn: tutorial level 1 always gets its fixed rap, tutorial
   * level 2 the fixed rap of the current turn, and every other game the rap
   * at `pick` (the random draw) in the current turn's list.
   */
  function EnemyTurnFor(tutorial: TutorialState, currentTurn: int, pick: nat): (info: EnemyTurnInfo)
    requires pick < |EnemyRapsFor(currentTurn)|
    ensures tutorial.isActive && tutorial.currentLevel == 1 ==> info == TUTORIAL_ENEMY_RAP
    ensures tutorial.isActive && tutorial.currentLevel == 2 && currentTurn == 1 ==> info == TUTORIAL_LEVEL2_TURN1
    ensures tutorial.isActive && tutorial.currentLevel == 2 && currentTurn != 1 ==> info == TUTORIAL_LEVEL2_TURN2
    ensures !(tutorial.isActive && tutorial.currentLevel <= 2) ==> info in EnemyRapsFor(currentTurn)
  {
    if tutorial.isActive && tutorial.currentLevel == 1 then TUTORIAL_ENEMY_RAP
    else if tutorial.isActive && tutorial.currentLevel == 2 then
      if currentTurn == 1 then TUTORIAL_LEVEL2_TURN1 else TUTORIAL_LEVEL2_TURN2
    else EnemyRapsFor(currentTurn)[pick]
  }

  /**
   * Tutorial level 1 opens with a #攻撃 rap in group B, which a #カウンター
   * card of group B answers; the level-2 raps ask for group A and then C.
   */
  lemma TutorialRapsAreAnswerable()
    ensures TUTORIAL_ENEMY_RAP.ctype == Attack && TUTORIAL_ENEMY_RAP.rhyming == B
    ensures FindCompatibility(TYPE_COMPATIBILITY_TABLE, Attack, Counter).Some?
    ensures exists c :: c in COLLOCATIONS_DATA && c.ctype == Counter && c.rhyming == B
    ensures TUTORIAL_LEVEL2_TURN1.rhyming == A && TUTORIAL_LEVEL2_TURN2.rhyming == C
  {
    assert COLLOCATIONS_DATA[15].ctype == Counter && COLLOCATIONS_DATA[15].rhyming == B;
    assert TYPE_COMPATIBILITY_TABLE[0] == TypeCompatibility(Attack, Counter, 1.5);
  }

  // ---------------------------------------------------------------------------
  // The match record
  // ---------------------------------------------------------------------------

  /** The fields of the game state that both stores hold. */
  datatype MatchState = MatchState(
    currentScreen: GameScreen,
    playerDeck: seq<Collocation>,
    enemyCharacter: EnemyCharacter,
    currentTurn: int,
    maxTurns: int,
    remainingCollocations: RemainingCollocations,
    selectedTurnCollocations: SelectedTurnCollocations,
    fillerTapResults: seq<FillerTapResult>,
    currentEnemyTurnInfo: Option<EnemyTurnInfo>,
    turnResults: seq<TurnResult>,
    totalScore: int,
    isGameStarted: bool,
    isGameFinished: bool)

  /**
   * initialState / initialGameState against `enemy` (the stores use
   * getDefaultEnemy()): title screen, empty deck and pool, turn 1 of MAX_TURNS.
   */
  function InitialMatchState(enemy: EnemyCharacter): (s: MatchState)
    ensures s.currentScreen == Title && s.playerDeck == [] && s.enemyCharacter == enemy
    ensures s.currentTurn == 1 && s.maxTurns == MAX_TURNS && s.remainingCollocations.all == []
    ensures forall slot :: s.selectedTurnCollocations.Get(slot).None?
    ensures s.fillerTapResults == [] && s.currentEnemyTurnInfo.None?
    ensures s.turnResults == [] && s.totalScore == 0 && !s.isGameStarted && !s.isGameFinished
  {
    MatchState(Title, [], enemy, 1, MAX_TURNS, EMPTY_REMAINING, EMPTY_SLOTS, [], None, [], 0, false, false)
  }

  /**
   * What the actions keep true of the record, given the deck the current
   * match started from and the ids of the cards played since.
   */
  ghost predicate MatchInvariant(s: MatchState, matchDeck: seq<Collocation>, playedIds: set<string>) {
    && DeckValid(s.playerDeck)
    && SlotIdsDistinct(s.selectedTurnCollocations)
    && s.maxTurns == MAX_TURNS
    && 1 <= s.currentTurn <= s.maxTurns
    && s.totalScore == SumScores(s.turnResults)
    && s.remainingCollocations.all == RemoveIds(matchDeck, playedIds)
    && BucketsConsistent(s.remainingCollocations)
  }

  lemma InitialMatchStateIsValid(enemy: EnemyCharacter)
    ensures MatchInvariant(InitialMatchState(enemy), [], {})
  {
  }

  /** startGame: a fresh pool from the deck, turn 1, no results, the opponent's turn. */
  function StartMatch(s: MatchState): (r: MatchState)
    ensures r.remainingCollocations.all == s.playerDeck && BucketsConsistent(r.remainingCollocations)
    ensures r.currentTurn == 1 && r.turnResults == [] && r.totalScore == 0
    ensures r.currentScreen == EnemyTurn && r.isGameStarted && !r.isGameFinished
    ensures r.playerDeck == s.playerDeck && r.selectedTurnCollocations == s.selectedTurnCollocations
  {
    s.(isGameStarted := true, currentTurn := 1,
       remainingCollocations := InitializeRemainingCollocations(s.playerDeck),
       currentScreen := EnemyTurn, turnResults := [], totalScore := 0, isGameFinished := false)
  }

  /** A started match has the whole deck in its pool and nothing played. */
  lemma StartMatchKeepsInvariant(s: MatchState, matchDeck: seq<Collocation>, playedIds: set<string>)
    requires MatchInvariant(s, matchDeck, playedIds)
    ensures MatchInvariant(StartMatch(s), s.playerDeck, {})
  {
    RemoveNoIds(s.playerDeck);
  }

  /**
   * finishAttackPhase: the turn's result is appended, its total added to the
   * score, the selected cards leave the pool and the turn result is shown.
   */
  function FinishTurn(s: MatchState, result: TurnResult): (r: MatchState)
    ensures r.turnResults == s.turnResults + [result]
    ensures r.totalScore == s.totalScore + result.totalScore
    ensures r.remainingCollocations == UpdateRemainingCollocations(s.remainingCollocations, s.selectedTurnCollocations.Values())
    ensures r.currentScreen == TurnResultScreen
    ensures r.playerDeck == s.playerDeck && r.currentTurn == s.currentTurn && r.selectedTurnCollocations == s.selectedTurnCollocations
  {
    s.(turnResults := s.turnResults + [result],
       totalScore := s.totalScore + result.totalScore,
       remainingCollocations := UpdateRemainingCollocations(s.remainingCollocations, s.selectedTurnCollocations.Values()),
       currentScreen := TurnResultScreen)
  }

  /**
   * Finishing a turn keeps the score equal to the sum of the turn totals and
   * the pool equal to the match deck minus every card played, now including
   * this turn's.
   */
  lemma FinishTurnKeepsInvariant(s: MatchState, result: TurnResult, matchDeck: seq<Collocation>, playedIds: set<string>)
    requires MatchInvariant(s, matchDeck, playedIds)
    ensures MatchInvariant(FinishTurn(s, result), matchDeck, playedIds + UsedIds(s.selectedTurnCollocations.Values()))
  {
    SumScoresAppend(s.turnResults, result);
    PlayKeepsPool(s.remainingCollocations, matchDeck, playedIds, s.selectedTurnCollocations.Values());
  }

  /** resetGame's match part: the initial record, keeping the deck and the opponent. */
  function ResetMatch(s: MatchState): (r: MatchState)
    ensures r.playerDeck == s.playerDeck && r.enemyCharacter == s.enemyCharacter
    ensures r.currentScreen == Title && r.currentTurn == 1 && r.remainingCollocations.all == []
    ensures r.turnResults == [] && r.totalScore == 0 && !r.isGameStarted && !r.isGameFinished
    ensures r.currentEnemyTurnInfo.None? && r.fillerTapResults == []
    ensures forall slot :: r.selectedTurnCollocations.Get(slot).None?
  {
    InitialMatchState(s.enemyCharacter).(playerDeck := s.playerDeck)
  }

  lemma ResetMatchKeepsInvariant(s: MatchState, matchDeck: seq<Collocation>, playedIds: set<string>)
    requires MatchInvariant(s, matchDeck, playedIds)
    ensures MatchInvariant(ResetMatch(s), [], {})
  {
  }

  /** The next turn, or the end of the match after the last one (proceedToNextTurn). */
  function NextTurn(currentTurn: int, maxTurns: int): (r: (int, bool))
    ensures currentTurn + 1 > maxTurns ==> r == (currentTurn, true)
    ensures currentTurn + 1 <= maxTurns ==> r == (currentTurn + 1, false)
  {
    if currentTurn + 1 > maxTurns then (currentTurn, true) else (currentTurn + 1, false)
  }

  /** From turn 1, advancing MAX_TURNS times ends the match on turn MAX_TURNS. */
  lemma TwoTurnMatch()
    ensures NextTurn(1, MAX_TURNS) == (2, false)
    ensures NextTurn(2, MAX_TURNS) == (2, true)
  {
  }

  /** Advancing keeps the turn within [1, maxTurns]. */
  lemma NextTurnStaysInRange(currentTurn: int, maxTurns: int)
    requires 1 <= currentTurn <= maxTurns
    ensures 1 <= NextTurn(currentTurn, maxTurns).0 <= maxTurns
    ensures NextTurn(currentTurn, maxTurns).1 <==> currentTurn == maxTurns
  {
  }

  /**
   * Playing the selected cards keeps the pool equal to the match deck minus
   * every card played so far.
   */
  lemma PlayKeepsPool(remaining: RemainingCollocations, matchDeck: seq<Collocation>, playedIds: set<string>, used: seq<Option<Collocation>>)
    requires remaining.all == RemoveIds(matchDeck, playedIds)
    ensures UpdateRemainingCollocations(remaining, used).all == RemoveIds(matchDeck, playedIds + UsedIds(used))
  {
    RemoveIdsTwice(matchDeck, playedIds, UsedIds(used));
  }

  /** Starting a match makes the pool the whole deck with nothing played. */
  lemma StartKeepsPool(deck: seq<Collocation>)
    ensures InitializeRemainingCollocations(deck).all == RemoveIds(deck, {})
  {
    RemoveNoIds(deck);
  }
}
