/**
 * The value types of the rap-battle game (lib/types.ts), as immutable datatypes.
 * Field names follow the game's records; `type` is a Dafny keyword, so the
 * collocation type field is called `ctype`.
 */
module Types {
  import opened Wrappers

  /** The four collocation types: #攻撃, #自慢, #夢中 and #カウンター. */
  datatype CollocationType = Attack | Boast | Immersed | Counter

  /**
   * The rhyming groups A to D, plus `Dash`, the "-" value that the card
   * annotations treat as "no rhyme" although the declared group type omits it.
   */
  datatype Rhyming = A | B | C | D | Dash

  /** Judgement of one tap, from the most to the least accurate. */
  datatype TapJudgement = Perfect | Good | Bad | Miss

  /** A phrase card. */
  datatype Collocation = Collocation(id: string, text: string, ctype: CollocationType, rhyming: Rhyming)

  /** An ad-lib word shown between two collocations. */
  datatype Filler = Filler(id: string, text: string)

  /** One judged tap on the filler button. */
  datatype FillerTapResult = FillerTapResult(filler: Filler, judgement: TapJudgement, timestamp: int)

  datatype RhymingChainEvaluation = RhymingChainEvaluation(chainCount: nat, multiplier: real, score: real)

  datatype TypeCompatibilityEvaluation = TypeCompatibilityEvaluation(isCompatible: bool, multiplier: real, score: real)

  datatype RhythmEvaluation = RhythmEvaluation(perfectCount: nat, goodCount: nat, badCount: nat, missCount: nat, score: real)

  datatype TurnResult = TurnResult(
    rhythmEvaluation: RhythmEvaluation,
    rhymingEvaluation: RhymingChainEvaluation,
    typeEvaluation: TypeCompatibilityEvaluation,
    totalScore: int)

  /** The four selection slots of a turn. */
  datatype SlotName = Slot1 | Slot2 | Slot3 | Slot4

  /** The four cards (or empty slots) chosen for one turn. */
  datatype SelectedTurnCollocations = SelectedTurnCollocations(
    slot1: Option<Collocation>,
    slot2: Option<Collocation>,
    slot3: Option<Collocation>,
    slot4: Option<Collocation>)
  {
    function Get(slot: SlotName): Option<Collocation> {
      match slot
      case Slot1 => slot1
      case Slot2 => slot2
      case Slot3 => slot3
      case Slot4 => slot4
    }

    /** The record with `slot` overwritten by `v` (the spread `{...slots, [slot]: v}`). */
    function With(slot: SlotName, v: Option<Collocation>): (r: SelectedTurnCollocations)
      ensures r.Get(slot) == v
      ensures forall other :: other != slot ==> r.Get(other) == Get(other)
    {
      match slot
      case Slot1 => this.(slot1 := v)
      case Slot2 => this.(slot2 := v)
      case Slot3 => this.(slot3 := v)
      case Slot4 => this.(slot4 := v)
    }

    /** `Object.values(slots)`: the slots in declaration order. */
    function Values(): seq<Option<Collocation>> {
      [slot1, slot2, slot3, slot4]
    }
  }

  const EMPTY_SLOTS := SelectedTurnCollocations(None, None, None, None)

  /**
   * Screens of the game. `Error` is set by the error action although the
   * declared screen union does not list it.
   */
  datatype GameScreen = Title | DeckSelect | EnemyTurn | BattlePrepare | BattleAttack | TurnResultScreen | FinalResult | Error

  datatype ErrorType = ResourceDepleted | Unknown

  datatype EnemyCharacter = EnemyCharacter(id: string, name: string, description: string, deck: seq<Collocation>)

  /**
   * What the stores record about the opponent's turn. This is the shape the
   * stores build; the declared interface (a collocation plus two hints) differs.
   */
  datatype EnemyTurnInfo = EnemyTurnInfo(lyrics: string, ctype: CollocationType, rhyming: Rhyming, hintMood: string, hintRhyming: string)

  /** The per-group buckets of the remaining pool. */
  datatype ByRhyming = ByRhyming(a: seq<Collocation>, b: seq<Collocation>, c: seq<Collocation>, d: seq<Collocation>)
  {
    /** `byRhyming[g]`; there is no bucket for "-". */
    function Get(g: Rhyming): Option<seq<Collocation>> {
      match g
      case A => Some(a)
      case B => Some(b)
      case C => Some(c)
      case D => Some(d)
      case Dash => None
    }
  }

  /** The player's cards not yet played in this match. */
  datatype RemainingCollocations = RemainingCollocations(all: seq<Collocation>, byRhyming: ByRhyming)

  /** One entry of the directed type-compatibility table. */
  datatype TypeCompatibility = TypeCompatibility(enemyType: CollocationType, effectiveType: CollocationType, multiplier: real)
}
