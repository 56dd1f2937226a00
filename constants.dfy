/** Game configuration and scoring tables (lib/constants.ts). */
module Constants {
  import opened Types

  // Game configuration.
  const MAX_TURNS: nat := 2
  const MAX_DECK_SIZE: nat := 20
  const MIN_DECK_SIZE: nat := 15
  const TURN_COLLOCATIONS_COUNT: nat := 4
  const PREPARE_PHASE_DURATION: nat := 8000
  const ATTACK_PHASE_DURATION: nat := 8000
  const ENEMY_TURN_DURATION: nat := 8000

  // Weights of the three evaluations in a turn's total.
  const RHYTHM_WEIGHT: real := 0.25
  const RHYMING_WEIGHT: real := 0.45
  const TYPE_WEIGHT: real := 0.3

  /** Points of one tap judgement. */
  function TapScore(j: TapJudgement): nat {
    match j
    case Perfect => 100
    case Good => 70
    case Bad => 30
    case Miss => 0
  }

  /** Chain multiplier by the length of the longest same-rhyme chain. */
  const RHYMING_CHAIN_MULTIPLIERS: map<int, real> := map[1 := 1.0, 2 := 1.5, 3 := 2.0, 4 := 3.0, 5 := 4.0]

  /** Directed compatibility: `effectiveType` is effective against `enemyType`. */
  const TYPE_COMPATIBILITY_TABLE: seq<TypeCompatibility> := [
    TypeCompatibility(Attack, Counter, 1.5),
    TypeCompatibility(Attack, Immersed, 1.3),
    TypeCompatibility(Boast, Attack, 1.3),
    TypeCompatibility(Boast, Counter, 1.2),
    TypeCompatibility(Immersed, Attack, 1.2),
    TypeCompatibility(Counter, Boast, 1.3)
  ]

  // Win condition over the whole match.
  const WIN_MIN_SCORE: int := 150
  const MAX_SCORE_PER_TURN: int := 100

  /** Mood hint per collocation type. */
  const TYPE_MOOD_HINTS: map<CollocationType, string> := map[
    Attack := "攻撃的",
    Boast := "自慢げ",
    Immersed := "マイペース",
    Counter := "反論的"
  ]

  /** Rhyme hint per rhyming group. */
  const RHYMING_HINTS: map<Rhyming, string> := map[
    A := "A系(〜い、〜ない)",
    B := "B系(〜あ、〜だ)",
    C := "C系(〜ん、〜さ)",
    D := "D系(〜イフ、〜イス)"
  ]

  /** The three weights add up to exactly one. */
  lemma ScoreWeightsSumToOne()
    ensures RHYTHM_WEIGHT + RHYMING_WEIGHT + TYPE_WEIGHT == 1.0
  {
  }

  /** Tap points strictly decrease from Perfect to Miss. */
  lemma TapScoresStrictlyDecrease()
    ensures TapScore(Perfect) > TapScore(Good) > TapScore(Bad) > TapScore(Miss) == 0
  {
  }

  /** The chain table covers exactly the counts 1..5, starts at 1.0 and strictly increases. */
  lemma ChainMultipliersIncrease()
    ensures RHYMING_CHAIN_MULTIPLIERS.Keys == {1, 2, 3, 4, 5}
    ensures RHYMING_CHAIN_MULTIPLIERS[1] == 1.0
    ensures forall i, j :: i in RHYMING_CHAIN_MULTIPLIERS && j in RHYMING_CHAIN_MULTIPLIERS && i < j ==>
      RHYMING_CHAIN_MULTIPLIERS[i] < RHYMING_CHAIN_MULTIPLIERS[j]
  {
  }

  /**
   * The compatibility table has six entries with pairwise distinct
   * (enemy, effective) pairs, every multiplier is in (1.0, 1.5], and no type
   * is effective against itself.
   */
  lemma CompatibilityTableWellFormed()
    ensures |TYPE_COMPATIBILITY_TABLE| == 6
    ensures forall i, j :: 0 <= i < j < |TYPE_COMPATIBILITY_TABLE| ==>
      (TYPE_COMPATIBILITY_TABLE[i].enemyType, TYPE_COMPATIBILITY_TABLE[i].effectiveType) !=
      (TYPE_COMPATIBILITY_TABLE[j].enemyType, TYPE_COMPATIBILITY_TABLE[j].effectiveType)
    ensures forall e :: e in TYPE_COMPATIBILITY_TABLE ==> 1.0 < e.multiplier <= 1.5
    ensures forall e :: e in TYPE_COMPATIBILITY_TABLE ==> e.enemyType != e.effectiveType
  {
  }

  /** A deck of legal size holds enough cards for every turn of a match. */
  lemma DeckBoundsCoverMatch()
    ensures MIN_DECK_SIZE <= MAX_DECK_SIZE
    ensures MAX_TURNS * TURN_COLLOCATIONS_COUNT <= MIN_DECK_SIZE
  {
  }

  /** Both hint tables are total over the four types and the four real rhyming groups. */
  lemma HintTablesTotal()
    ensures forall t: CollocationType :: t in TYPE_MOOD_HINTS
    ensures forall g: Rhyming :: g in RHYMING_HINTS <==> g != Dash
  {
    forall t: CollocationType ensures t in TYPE_MOOD_HINTS {
      assert t == Attack || t == Boast || t == Immersed || t == Counter;
    }
  }
}
