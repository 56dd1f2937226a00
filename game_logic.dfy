/**
 * The turn-scoring engine and the remaining-card pool (lib/game-logic.ts):
 * rhythm, rhyme-chain and type-compatibility evaluations, their weighted
 * total, the pool of cards left to a player, and per-card hints.
 */
module GameLogic {
  import opened Wrappers
  import opened Types
  import opened Constants
  import opened Tally

  // ---------------------------------------------------------------------------
  // Projections
  // ---------------------------------------------------------------------------

  /** `cards.filter(c => c !== null)`. */
  function NonNull(cards: seq<Option<Collocation>>): (valid: seq<Collocation>)
    ensures |valid| <= |cards|
    ensures forall c :: c in valid <==> Some(c) in cards
  {
    if cards == [] then []
    else
      assert cards == [cards[0]] + cards[1..];
      (if cards[0].Some? then [cards[0].value] else []) + NonNull(cards[1..])
  }

  lemma {:induction false} NonNullAppend(a: seq<Option<Collocation>>, b: seq<Option<Collocation>>)
    ensures NonNull(a + b) == NonNull(a) + NonNull(b)
  {
    if a != [] {
      assert (a + b)[1..] == a[1..] + b;
      NonNullAppend(a[1..], b);
    } else {
      assert a + b == b;
    }
  }

  lemma {:induction false} NonNullOfAllNone(cards: seq<Option<Collocation>>)
    requires forall i :: 0 <= i < |cards| ==> cards[i].None?
    ensures NonNull(cards) == []
  {
    if cards != [] {
      NonNullOfAllNone(cards[1..]);
    }
  }

  lemma {:induction false} NonNullOfAllSome(cards: seq<Option<Collocation>>)
    requires forall i :: 0 <= i < |cards| ==> cards[i].Some?
    ensures |NonNull(cards)| == |cards|
  {
    if cards != [] {
      NonNullOfAllSome(cards[1..]);
    }
  }

  function RhymingsOf(cards: seq<Collocation>): seq<Rhyming> {
    seq(|cards|, i requires 0 <= i < |cards| => cards[i].rhyming)
  }

  function TypesOf(cards: seq<Collocation>): seq<CollocationType> {
    seq(|cards|, i requires 0 <= i < |cards| => cards[i].ctype)
  }

  function JudgementsOf(taps: seq<FillerTapResult>): seq<TapJudgement> {
    seq(|taps|, i requires 0 <= i < |taps| => taps[i].judgement)
  }

  lemma {:induction false} OccurrencesOfConstant<T(!new)>(s: seq<T>, x: T)
    requires forall i :: 0 <= i < |s| ==> s[i] == x
    ensures Occurrences(s, x) == |s|
  {
    if s != [] {
      OccurrencesOfConstant(s[..|s| - 1], x);
    }
  }

  lemma {:induction false} OccurrencesOfDistinct<T(!new)>(s: seq<T>, x: T)
    requires NoDuplicates(s)
    ensures Occurrences(s, x) <= 1
  {
    if s != [] {
      var front := s[..|s| - 1];
      OccurrencesOfDistinct(front, x);
      if s[|s| - 1] == x {
        assert x !in front;
      }
    }
  }

  // ---------------------------------------------------------------------------
  // Rhyme-chain evaluation
  // ---------------------------------------------------------------------------

  /** `RHYMING_CHAIN_MULTIPLIERS[n] || 1.0`. */
  function ChainMultiplier(n: int): (m: real)
    ensures 1.0 <= m <= 4.0
    ensures n <= 4 ==> m <= 3.0
    ensures n == 1 ==> m == 1.0
  {
    if n in RHYMING_CHAIN_MULTIPLIERS && RHYMING_CHAIN_MULTIPLIERS[n] != 0.0 then RHYMING_CHAIN_MULTIPLIERS[n] else 1.0
  }

  /** What calculateRhymingChainEvaluation returns. */
  function RhymingChainEvaluationOf(collocations: seq<Option<Collocation>>): RhymingChainEvaluation {
    var valid := NonNull(collocations);
    if |valid| == 0 then RhymingChainEvaluation(0, 1.0, 0.0)
    else
      var rhymings := RhymingsOf(valid);
      var chainCount := MaxCount(rhymings, KeysInOrder(rhymings));
      var multiplier := ChainMultiplier(chainCount);
      RhymingChainEvaluation(chainCount, multiplier, 100.0 * multiplier)
  }

  /** calculateRhymingChainEvaluation: tally the rhyming groups, then take the largest count. */
  method CalculateRhymingChainEvaluation(collocations: seq<Option<Collocation>>) returns (e: RhymingChainEvaluation)
    ensures e == RhymingChainEvaluationOf(collocations)
  {
    var valid := NonNull(collocations);
    if |valid| == 0 {
      return RhymingChainEvaluation(0, 1.0, 0.0);
    }
    var rhymings := RhymingsOf(valid);
    var counts, keys := Tally.Tally(rhymings);
    var maxChainCount := 0;
    var k := 0;
    while k < |keys|
      invariant 0 <= k <= |keys|
      invariant maxChainCount == MaxCount(rhymings, keys[..k])
    {
      assert keys[..k + 1][..k] == keys[..k];
      var count := counts[keys[k]];
      if count > maxChainCount {
        maxChainCount := count;
      }
      k := k + 1;
    }
    assert keys[..k] == keys;
    var multiplier := ChainMultiplier(maxChainCount);
    e := RhymingChainEvaluation(maxChainCount, multiplier, 100.0 * multiplier);
  }

  /** No valid card: chain 0, multiplier 1.0, score 0. */
  lemma NoCardsNoChain(collocations: seq<Option<Collocation>>)
    requires forall i :: 0 <= i < |collocations| ==> collocations[i].None?
    ensures RhymingChainEvaluationOf(collocations) == RhymingChainEvaluation(0, 1.0, 0.0)
  {
    NonNullOfAllNone(collocations);
  }

  /**
   * With valid cards, chainCount is the size of the largest group of cards
   * sharing a rhyming value, and the multiplier and score follow the table.
   */
  lemma ChainCountIsLargestGroup(collocations: seq<Option<Collocation>>)
    requires NonNull(collocations) != []
    ensures var e := RhymingChainEvaluationOf(collocations);
      var rhymings := RhymingsOf(NonNull(collocations));
      && (forall g :: Occurrences(rhymings, g) <= e.chainCount)
      && (exists c :: c in NonNull(collocations) && Occurrences(rhymings, c.rhyming) == e.chainCount)
      && 1 <= e.chainCount <= |NonNull(collocations)|
      && e.multiplier == ChainMultiplier(e.chainCount)
      && e.score == 100.0 * e.multiplier
  {
    var valid := NonNull(collocations);
    var rhymings := RhymingsOf(valid);
    var keys := KeysInOrder(rhymings);
    MaxCountIsMaximum(rhymings, keys);
    var g :| g in keys && Occurrences(rhymings, g) == MaxCount(rhymings, keys);
    var i :| 0 <= i < |rhymings| && rhymings[i] == g;
    assert valid[i] in valid;
    forall h ensures Occurrences(rhymings, h) <= MaxCount(rhymings, keys) {
      if h in rhymings {
        assert h in keys;
      }
    }
  }

  /** Cards all of one rhyming group form one chain as long as the hand. */
  lemma SameRhymingIsFullChain(collocations: seq<Option<Collocation>>, g: Rhyming)
    requires NonNull(collocations) != []
    requires forall c :: c in NonNull(collocations) ==> c.rhyming == g
    ensures RhymingChainEvaluationOf(collocations).chainCount == |NonNull(collocations)|
  {
    var rhymings := RhymingsOf(NonNull(collocations));
    ChainCountIsLargestGroup(collocations);
    OccurrencesOfConstant(rhymings, g);
  }

  /** Four cards of one group score (4, 3.0, 300). */
  lemma FourOfOneGroupTriplesScore(collocations: seq<Option<Collocation>>, g: Rhyming)
    requires |collocations| == 4
    requires forall i :: 0 <= i < 4 ==> collocations[i].Some? && collocations[i].value.rhyming == g
    ensures RhymingChainEvaluationOf(collocations) == RhymingChainEvaluation(4, 3.0, 300.0)
  {
    NonNullOfAllSome(collocations);
    SameRhymingIsFullChain(collocations, g);
  }

  /** Cards of pairwise different groups form no chain: (1, 1.0, 100). */
  lemma DistinctRhymingsNoChain(collocations: seq<Option<Collocation>>)
    requires NonNull(collocations) != []
    requires NoDuplicates(RhymingsOf(NonNull(collocations)))
    ensures RhymingChainEvaluationOf(collocations) == RhymingChainEvaluation(1, 1.0, 100.0)
  {
    var rhymings := RhymingsOf(NonNull(collocations));
    ChainCountIsLargestGroup(collocations);
    var c :| c in NonNull(collocations) && Occurrences(rhymings, c.rhyming) == RhymingChainEvaluationOf(collocations).chainCount;
    OccurrencesOfDistinct(rhymings, c.rhyming);
  }

  // ---------------------------------------------------------------------------
  // Type-compatibility evaluation
  // ---------------------------------------------------------------------------

  /** `table.find(c => c.enemyType === enemyType && c.effectiveType === effectiveType)`. */
  function FindCompatibility(table: seq<TypeCompatibility>, enemyType: CollocationType, effectiveType: CollocationType): (r: Option<TypeCompatibility>)
    ensures r.Some? ==> r.value in table && r.value.enemyType == enemyType && r.value.effectiveType == effectiveType
    ensures r.None? <==> forall e :: e in table ==> !(e.enemyType == enemyType && e.effectiveType == effectiveType)
  {
    if table == [] then None
    else if table[0].enemyType == enemyType && table[0].effectiveType == effectiveType then Some(table[0])
    else
      assert table == [table[0]] + table[1..];
      FindCompatibility(table[1..], enemyType, effectiveType)
  }

  /** The most used type, with ties going as the reduce over insertion order sends them. */
  function MostUsedType(valid: seq<Collocation>): CollocationType
    requires valid != []
  {
    var types := TypesOf(valid);
    MostFrequent(types, KeysInOrder(types))
  }

  /** A tie between two types goes to the one seen later. */
  lemma TieGoesToLaterType(valid: seq<Collocation>)
    requires |valid| == 2 && valid[0].ctype != valid[1].ctype
    ensures MostUsedType(valid) == valid[1].ctype
  {
    var types := TypesOf(valid);
    MostFrequentIsLatestTiedMaximum(types);
    var m := MostUsedType(valid);
    assert types == [valid[0].ctype, valid[1].ctype];
    assert types == [valid[0].ctype] + [valid[1].ctype];
    assert Occurrences(types, types[0]) == 1;
    assert Occurrences(types, types[1]) == 1;
    FirstIndexUnique(types, types[0], 0);
    assert types[..1] == [types[0]];
    FirstIndexUnique(types, types[1], 1);
  }

  /**
   * The most used type is a type of the cards with the largest count; among
   * types tied for that count it is the one whose first card comes latest.
   */
  lemma MostUsedTypeIsLatestTiedMaximum(valid: seq<Collocation>)
    requires valid != []
    ensures var types := TypesOf(valid);
      var m := MostUsedType(valid);
      && m in types
      && (forall t :: Occurrences(types, t) <= Occurrences(types, m))
      && (forall t :: t in types && Occurrences(types, t) == Occurrences(types, m) ==> FirstIndex(types, t) <= FirstIndex(types, m))
  {
    MostFrequentIsLatestTiedMaximum(TypesOf(valid));
  }

  /** What calculateTypeCompatibilityEvaluation returns. */
  function TypeCompatibilityEvaluationOf(collocations: seq<Option<Collocation>>, enemyType: CollocationType): TypeCompatibilityEvaluation {
    var valid := NonNull(collocations);
    if |valid| == 0 then TypeCompatibilityEvaluation(false, 1.0, 0.0)
    else
      var compatibility := FindCompatibility(TYPE_COMPATIBILITY_TABLE, enemyType, MostUsedType(valid));
      var multiplier := if compatibility.Some? && compatibility.value.multiplier != 0.0 then compatibility.value.multiplier else 1.0;
      TypeCompatibilityEvaluation(compatibility.Some?, multiplier, 100.0 * multiplier)
  }

  /** calculateTypeCompatibilityEvaluation: tally the types, reduce to the most used one, look it up. */
  method CalculateTypeCompatibilityEvaluation(collocations: seq<Option<Collocation>>, enemyType: CollocationType)
    returns (e: TypeCompatibilityEvaluation)
    ensures e == TypeCompatibilityEvaluationOf(collocations, enemyType)
  {
    var valid := NonNull(collocations);
    if |valid| == 0 {
      return TypeCompatibilityEvaluation(false, 1.0, 0.0);
    }
    var types := TypesOf(valid);
    var counts, keys := Tally.Tally(types);
    assert types[0] in keys;
    var best := ReduceMostFrequent(types, counts, keys);
    var mostUsedType := keys[best];
    var compatibility := FindCompatibility(TYPE_COMPATIBILITY_TABLE, enemyType, mostUsedType);
    var multiplier := if compatibility.Some? && compatibility.value.multiplier != 0.0 then compatibility.value.multiplier else 1.0;
    e := TypeCompatibilityEvaluation(compatibility.Some?, multiplier, 100.0 * multiplier);
  }

  /**
   * With valid cards: compatible exactly when the table has an entry for
   * (enemy type, most used type); the multiplier is that entry's, else 1.0;
   * the score is 100 times the multiplier.
   */
  lemma TypeEvaluationFollowsTable(collocations: seq<Option<Collocation>>, enemyType: CollocationType)
    requires NonNull(collocations) != []
    ensures var e := TypeCompatibilityEvaluationOf(collocations, enemyType);
      var m := MostUsedType(NonNull(collocations));
      && (e.isCompatible <==> exists c :: c in TYPE_COMPATIBILITY_TABLE && c.enemyType == enemyType && c.effectiveType == m)
      && (forall c :: c in TYPE_COMPATIBILITY_TABLE && c.enemyType == enemyType && c.effectiveType == m ==> e.multiplier == c.multiplier)
      && (!e.isCompatible ==> e.multiplier == 1.0)
      && 1.0 <= e.multiplier <= 1.5
      && e.score == 100.0 * e.multiplier
  {
    CompatibilityTableWellFormed();
    var m := MostUsedType(NonNull(collocations));
    var found := FindCompatibility(TYPE_COMPATIBILITY_TABLE, enemyType, m);
    forall c | c in TYPE_COMPATIBILITY_TABLE && c.enemyType == enemyType && c.effectiveType == m
      ensures found == Some(c)
    {
      var i :| 0 <= i < |TYPE_COMPATIBILITY_TABLE| && TYPE_COMPATIBILITY_TABLE[i] == c;
      var j :| 0 <= j < |TYPE_COMPATIBILITY_TABLE| && TYPE_COMPATIBILITY_TABLE[j] == found.value;
      assert i == j;
    }
  }

  /** Without a valid card the evaluation is (false, 1.0, 0). */
  lemma NoCardsNoTypeMatch(collocations: seq<Option<Collocation>>, enemyType: CollocationType)
    requires forall i :: 0 <= i < |collocations| ==> collocations[i].None?
    ensures TypeCompatibilityEvaluationOf(collocations, enemyType) == TypeCompatibilityEvaluation(false, 1.0, 0.0)
  {
    NonNullOfAllNone(collocations);
  }

  /** Four #カウンター cards against #攻撃: compatible, x1.5, score 150. */
  lemma CounterBeatsAttack(collocations: seq<Option<Collocation>>)
    requires |collocations| == 4
    requires forall i :: 0 <= i < 4 ==> collocations[i].Some? && collocations[i].value.ctype == Counter
    ensures TypeCompatibilityEvaluationOf(collocations, Attack) == TypeCompatibilityEvaluation(true, 1.5, 150.0)
  {
    var valid := NonNull(collocations);
    NonNullOfAllSome(collocations);
    var types := TypesOf(valid);
    MostFrequentIsLatestTiedMaximum(types);
    var i :| 0 <= i < |types| && types[i] == MostUsedType(valid);
    assert valid[i] in valid;
    assert MostUsedType(valid) == Counter;
    assert TYPE_COMPATIBILITY_TABLE[0] == TypeCompatibility(Attack, Counter, 1.5);
  }

  // ---------------------------------------------------------------------------
  // Rhythm evaluation
  // ---------------------------------------------------------------------------

  /** What calculateRhythmEvaluation returns. */
  function RhythmEvaluationOf(taps: seq<FillerTapResult>): RhythmEvaluation {
    var judgements := JudgementsOf(taps);
    var perfect := Occurrences(judgements, Perfect);
    var good := Occurrences(judgements, Good);
    var bad := Occurrences(judgements, Bad);
    var miss := Occurrences(judgements, Miss);
    var total := perfect * TapScore(Perfect) + good * TapScore(Good) + bad * TapScore(Bad) + miss * TapScore(Miss);
    var maxScore := |taps| * TapScore(Perfect);
    RhythmEvaluation(perfect, good, bad, miss, ScoreRatio(total, maxScore))
  }

  /** `maxScore > 0 ? (total / maxScore) * 100 : 0`. */
  function ScoreRatio(total: int, maxScore: int): real {
    if maxScore > 0 then (total as real / maxScore as real) * 100.0 else 0.0
  }

  /** calculateRhythmEvaluation: one pass counting each judgement. */
  method CalculateRhythmEvaluation(taps: seq<FillerTapResult>) returns (e: RhythmEvaluation)
    ensures e == RhythmEvaluationOf(taps)
  {
    var perfectCount, goodCount, badCount, missCount := 0, 0, 0, 0;
    ghost var judgements := JudgementsOf(taps);
    var i := 0;
    while i < |taps|
      invariant 0 <= i <= |taps|
      invariant perfectCount == Occurrences(judgements[..i], Perfect)
      invariant goodCount == Occurrences(judgements[..i], Good)
      invariant badCount == Occurrences(judgements[..i], Bad)
      invariant missCount == Occurrences(judgements[..i], Miss)
    {
      assert judgements[..i + 1][..i] == judgements[..i];
      match taps[i].judgement {
        case Perfect => perfectCount := perfectCount + 1;
        case Good => goodCount := goodCount + 1;
        case Bad => badCount := badCount + 1;
        case Miss => missCount := missCount + 1;
      }
      i := i + 1;
    }
    assert judgements[..i] == judgements;
    var totalScore := perfectCount * TapScore(Perfect) + goodCount * TapScore(Good) + badCount * TapScore(Bad) + missCount * TapScore(Miss);
    var maxScore := |taps| * TapScore(Perfect);
    e := RhythmEvaluation(perfectCount, goodCount, badCount, missCount, ScoreRatio(totalScore, maxScore));
  }

  lemma {:induction false} JudgementCountsSum(js: seq<TapJudgement>)
    ensures Occurrences(js, Perfect) + Occurrences(js, Good) + Occurrences(js, Bad) + Occurrences(js, Miss) == |js|
  {
    if js != [] {
      JudgementCountsSum(js[..|js| - 1]);
      match js[|js| - 1] {
        case Perfect =>
        case Good =>
        case Bad =>
        case Miss =>
      }
    }
  }

  /** Every tap lands in exactly one of the four counts. */
  lemma RhythmCountsCoverInput(taps: seq<FillerTapResult>)
    ensures var e := RhythmEvaluationOf(taps);
      e.perfectCount + e.goodCount + e.badCount + e.missCount == |taps|
  {
    JudgementCountsSum(JudgementsOf(taps));
  }

  /**
   * The score is the mean tap value: 0 for no taps, otherwise
   * (100P + 70G + 30B) / n, which lies in [0, 100].
   */
  lemma RhythmScoreIsMeanTapValue(taps: seq<FillerTapResult>)
    ensures var e := RhythmEvaluationOf(taps);
      && (|taps| == 0 ==> e.score == 0.0)
      && (|taps| > 0 ==> e.score == (100 * e.perfectCount + 70 * e.goodCount + 30 * e.badCount) as real / |taps| as real)
      && 0.0 <= e.score <= 100.0
  {
    var e := RhythmEvaluationOf(taps);
    RhythmScoreIsRatio(taps);
    RhythmCountsCoverInput(taps);
    if |taps| > 0 {
      ScaledRatio(100 * e.perfectCount + 70 * e.goodCount + 30 * e.badCount, |taps|);
    }
  }

  lemma RhythmScoreIsRatio(taps: seq<FillerTapResult>)
    ensures var e := RhythmEvaluationOf(taps);
      e.score == ScoreRatio(100 * e.perfectCount + 70 * e.goodCount + 30 * e.badCount, |taps| * 100)
  {
    var judgements := JudgementsOf(taps);
    var p, g, b := Occurrences(judgements, Perfect), Occurrences(judgements, Good), Occurrences(judgements, Bad);
    assert RhythmEvaluationOf(taps).score == ScoreRatio(100 * p + 70 * g + 30 * b, |taps| * 100);
  }

  /** `(total / (n * 100)) * 100` is `total / n`, and lies in [0, 100] when `total <= 100n`. */
  lemma ScaledRatio(total: int, n: int)
    requires n > 0 && 0 <= total <= 100 * n
    ensures ScoreRatio(total, n * 100) == total as real / n as real
    ensures 0.0 <= ScoreRatio(total, n * 100) <= 100.0
  {
    var d := (n * 100) as real;
    var q := total as real / d;
    assert d == 100.0 * n as real;
    assert q * d == total as real;
    assert (q * 100.0) * n as real == total as real;
    assert 0.0 <= q <= 1.0;
  }

  /** Only Perfect taps: all counted as Perfect and the score is 100. */
  lemma AllPerfectScoresHundred(taps: seq<FillerTapResult>)
    requires |taps| > 0
    requires forall i :: 0 <= i < |taps| ==> taps[i].judgement == Perfect
    ensures RhythmEvaluationOf(taps) == RhythmEvaluation(|taps|, 0, 0, 0, 100.0)
  {
    var judgements := JudgementsOf(taps);
    OccurrencesOfConstant(judgements, Perfect);
    RhythmCountsCoverInput(taps);
    RhythmScoreIsMeanTapValue(taps);
    var n := |taps| as real;
    assert (100.0 * n) / n == 100.0;
  }

  lemma JudgementsAppend(a: seq<FillerTapResult>, b: seq<FillerTapResult>)
    ensures JudgementsOf(a + b) == JudgementsOf(a) + JudgementsOf(b)
  {
  }

  lemma {:induction false} JudgementsPermutation(a: seq<FillerTapResult>, b: seq<FillerTapResult>)
    requires multiset(a) == multiset(b)
    ensures multiset(JudgementsOf(a)) == multiset(JudgementsOf(b))
    decreases |a|
  {
    if a == [] {
      assert |b| == |multiset(b)| == 0;
    } else {
      var x := a[0];
      assert x in multiset(b);
      var k :| 0 <= k < |b| && b[k] == x;
      var rest := b[..k] + b[k + 1..];
      assert b == b[..k] + [x] + b[k + 1..];
      assert multiset(b) == multiset(b[..k]) + multiset([x]) + multiset(b[k + 1..]);
      assert a == [x] + a[1..];
      assert multiset(a) == multiset([x]) + multiset(a[1..]);
      assert multiset(rest) == multiset(b[..k]) + multiset(b[k + 1..]);
      assert multiset(rest) == multiset(b) - multiset([x]);
      assert multiset(a[1..]) == multiset(a) - multiset([x]);
      JudgementsPermutation(a[1..], rest);
      JudgementsAppend([x], a[1..]);
      JudgementsAppend(b[..k], [x]);
      JudgementsAppend(b[..k] + [x], b[k + 1..]);
      JudgementsAppend(b[..k], b[k + 1..]);
    }
  }

  /** Reordering the taps changes neither the counts nor the score. */
  lemma RhythmPermutationInvariant(taps: seq<FillerTapResult>, reordered: seq<FillerTapResult>)
    requires multiset(taps) == multiset(reordered)
    ensures RhythmEvaluationOf(taps) == RhythmEvaluationOf(reordered)
  {
    var a, b := JudgementsOf(taps), JudgementsOf(reordered);
    JudgementsPermutation(taps, reordered);
    OccurrencesPermutation(a, b, Perfect);
    OccurrencesPermutation(a, b, Good);
    OccurrencesPermutation(a, b, Bad);
    OccurrencesPermutation(a, b, Miss);
    assert |taps| == |multiset(taps)| == |reordered|;
  }

  // ---------------------------------------------------------------------------
  // Turn result
  // ---------------------------------------------------------------------------

  /** `Math.round`: the nearest integer, halves rounded up. */
  function Round(x: real): (n: int)
    ensures x - 0.5 < n as real <= x + 0.5
  {
    (x + 0.5).Floor
  }

  /** calculateTurnResult: the three evaluations and their weighted, rounded total. */
  function CalculateTurnResult(
    playerCollocations: seq<Option<Collocation>>,
    enemyType: CollocationType,
    fillerTapResults: seq<FillerTapResult>): (r: TurnResult)
    ensures r.rhythmEvaluation == RhythmEvaluationOf(fillerTapResults)
    ensures r.rhymingEvaluation == RhymingChainEvaluationOf(playerCollocations)
    ensures r.typeEvaluation == TypeCompatibilityEvaluationOf(playerCollocations, enemyType)
    ensures var weighted := r.rhythmEvaluation.score * RHYTHM_WEIGHT + r.rhymingEvaluation.score * RHYMING_WEIGHT
        + r.typeEvaluation.score * TYPE_WEIGHT;
      weighted - 0.5 < r.totalScore as real <= weighted + 0.5
  {
    var rhythm := RhythmEvaluationOf(fillerTapResults);
    var rhyming := RhymingChainEvaluationOf(playerCollocations);
    var typeEvaluation := TypeCompatibilityEvaluationOf(playerCollocations, enemyType);
    var total := rhythm.score * RHYTHM_WEIGHT + rhyming.score * RHYMING_WEIGHT + typeEvaluation.score * TYPE_WEIGHT;
    TurnResult(rhythm, rhyming, typeEvaluation, Round(total))
  }

  /**
   * The total is a non-negative integer of at most 250, and of at most 205
   * (round(25 + 135 + 45)) when no more than four cards are played: it is not
   * capped at 100.
   */
  lemma TurnTotalBounds(playerCollocations: seq<Option<Collocation>>, enemyType: CollocationType, fillerTapResults: seq<FillerTapResult>)
    ensures var r := CalculateTurnResult(playerCollocations, enemyType, fillerTapResults);
      && 0 <= r.totalScore <= 250
      && (|NonNull(playerCollocations)| <= 4 ==> r.totalScore <= 205)
  {
    var rhythm := RhythmEvaluationOf(fillerTapResults);
    var rhyming := RhymingChainEvaluationOf(playerCollocations);
    var typeEvaluation := TypeCompatibilityEvaluationOf(playerCollocations, enemyType);
    RhythmScoreIsMeanTapValue(fillerTapResults);
    if NonNull(playerCollocations) != [] {
      ChainCountIsLargestGroup(playerCollocations);
      TypeEvaluationFollowsTable(playerCollocations, enemyType);
    }
    assert 0.0 <= rhyming.score <= 400.0;
    assert |NonNull(playerCollocations)| <= 4 ==> rhyming.score <= 300.0;
    assert 0.0 <= typeEvaluation.score <= 150.0;
  }

  /**
   * Three Perfect taps and four cards of one group whose types are #カウンター,
   * #カウンター, #夢中, #自慢 (the catalog's a05, a06, a03, a08 are such a
   * hand), played against #攻撃: the total is round(25 + 135 + 45) = 205.
   */
  lemma BestTurnScores205(playerCollocations: seq<Option<Collocation>>, g: Rhyming, fillerTapResults: seq<FillerTapResult>)
    requires |playerCollocations| == 4
    requires forall i :: 0 <= i < 4 ==> playerCollocations[i].Some? && playerCollocations[i].value.rhyming == g
    requires playerCollocations[0].value.ctype == Counter && playerCollocations[1].value.ctype == Counter
    requires playerCollocations[2].value.ctype == Immersed && playerCollocations[3].value.ctype == Boast
    requires |fillerTapResults| == 3 && forall i :: 0 <= i < 3 ==> fillerTapResults[i].judgement == Perfect
    ensures CalculateTurnResult(playerCollocations, Attack, fillerTapResults).totalScore == 205
  {
    AllPerfectScoresHundred(fillerTapResults);
    FourOfOneGroupTriplesScore(playerCollocations, g);
    var valid := NonNull(playerCollocations);
    NonNullOfFour(playerCollocations);
    PairOfCountersIsMostUsed(valid);
    assert TYPE_COMPATIBILITY_TABLE[0] == TypeCompatibility(Attack, Counter, 1.5);
  }

  lemma NonNullOfFour(p: seq<Option<Collocation>>)
    requires |p| == 4 && forall i :: 0 <= i < 4 ==> p[i].Some?
    ensures NonNull(p) == [p[0].value, p[1].value, p[2].value, p[3].value]
  {
    assert p[3..][1..] == [];
    assert NonNull(p[3..]) == [p[3].value];
    assert p[2..][1..] == p[3..];
    assert NonNull(p[2..]) == [p[2].value, p[3].value];
    assert p[1..][1..] == p[2..];
    assert NonNull(p[1..]) == [p[1].value, p[2].value, p[3].value];
  }

  lemma OccurrencesOfFour(s: seq<CollocationType>, x: CollocationType)
    requires |s| == 4
    ensures Occurrences(s, x) == (if s[0] == x then 1 else 0) + (if s[1] == x then 1 else 0)
      + (if s[2] == x then 1 else 0) + (if s[3] == x then 1 else 0)
  {
    var s3, s2, s1 := s[..3], s[..2], s[..1];
    assert s1[..0] == [];
    assert Occurrences(s1, x) == (if s[0] == x then 1 else 0);
    assert s2[..1] == s1;
    assert Occurrences(s2, x) == Occurrences(s1, x) + (if s[1] == x then 1 else 0);
    assert s3[..2] == s2;
    assert Occurrences(s3, x) == Occurrences(s2, x) + (if s[2] == x then 1 else 0);
    assert s[..3] == s3;
  }

  /** Two #カウンター cards outnumber one #夢中 and one #自慢. */
  lemma PairOfCountersIsMostUsed(valid: seq<Collocation>)
    requires |valid| == 4
    requires valid[0].ctype == Counter && valid[1].ctype == Counter
    requires valid[2].ctype == Immersed && valid[3].ctype == Boast
    ensures MostUsedType(valid) == Counter
  {
    var types := TypesOf(valid);
    MostFrequentIsLatestTiedMaximum(types);
    var m := MostUsedType(valid);
    OccurrencesOfFour(types, Counter);
    OccurrencesOfFour(types, m);
  }

  // ---------------------------------------------------------------------------
  // Remaining-card pool
  // ---------------------------------------------------------------------------

  /** `cards.filter(c => c.rhyming === g)`. */
  function FilterRhyming(cards: seq<Collocation>, g: Rhyming): (r: seq<Collocation>)
    ensures |r| <= |cards|
    ensures forall c :: c in r <==> c in cards && c.rhyming == g
  {
    if cards == [] then []
    else
      assert cards == [cards[0]] + cards[1..];
      (if cards[0].rhyming == g then [cards[0]] else []) + FilterRhyming(cards[1..], g)
  }

  /** `cards.filter(c => !ids.has(c.id))`. */
  function RemoveIds(cards: seq<Collocation>, ids: set<string>): (r: seq<Collocation>)
    ensures |r| <= |cards|
    ensures forall c :: c in r <==> c in cards && c.id !in ids
  {
    if cards == [] then []
    else
      assert cards == [cards[0]] + cards[1..];
      (if cards[0].id !in ids then [cards[0]] else []) + RemoveIds(cards[1..], ids)
  }

  /** The four buckets, each recomputed from `all`. */
  function BucketsOf(all: seq<Collocation>): ByRhyming {
    ByRhyming(FilterRhyming(all, A), FilterRhyming(all, B), FilterRhyming(all, C), FilterRhyming(all, D))
  }

  /** Every bucket is exactly `all` filtered by its group. */
  ghost predicate BucketsConsistent(p: RemainingCollocations) {
    p.byRhyming == BucketsOf(p.all)
  }

  /** The ids of the non-null used cards. */
  function UsedIds(used: seq<Option<Collocation>>): set<string> {
    set c | c in NonNull(used) :: c.id
  }

  /** `t` is `s` with some elements left out, in the same order. */
  predicate IsSubsequence<T(==)>(t: seq<T>, s: seq<T>) {
    if t == [] then true
    else if s == [] then false
    else if t[0] == s[0] then IsSubsequence(t[1..], s[1..])
    else IsSubsequence(t, s[1..])
  }

  lemma {:induction false} RemoveIdsIsSubsequence(cards: seq<Collocation>, ids: set<string>)
    ensures IsSubsequence(RemoveIds(cards, ids), cards)
  {
    if cards != [] {
      var tail := RemoveIds(cards[1..], ids);
      RemoveIdsIsSubsequence(cards[1..], ids);
      if cards[0].id !in ids {
        assert RemoveIds(cards, ids) == [cards[0]] + tail;
        assert ([cards[0]] + tail)[1..] == tail;
      } else if tail != [] {
        assert RemoveIds(cards, ids) == tail;
        assert tail[0] in tail;
        assert tail[0].id !in ids;
      }
    }
  }

  lemma {:induction false} RemoveIdsTwice(cards: seq<Collocation>, first: set<string>, second: set<string>)
    ensures RemoveIds(RemoveIds(cards, first), second) == RemoveIds(cards, first + second)
  {
    if cards != [] {
      var c, tail := cards[0], cards[1..];
      RemoveIdsTwice(tail, first, second);
      if c.id !in first {
        var r := RemoveIds(cards, first);
        assert r == [c] + RemoveIds(tail, first);
        assert r[0] == c && r[1..] == RemoveIds(tail, first);
      } else {
        assert RemoveIds(cards, first) == RemoveIds(tail, first);
      }
    }
  }

  lemma {:induction false} RemoveNoIds(cards: seq<Collocation>)
    ensures RemoveIds(cards, {}) == cards
  {
    if cards != [] {
      RemoveNoIds(cards[1..]);
    }
  }

  /** initializeRemainingCollocations: a copy of the deck with its four buckets. */
  function InitializeRemainingCollocations(deck: seq<Collocation>): (r: RemainingCollocations)
    ensures r.all == deck
    ensures BucketsConsistent(r)
  {
    RemainingCollocations(deck, BucketsOf(deck))
  }

  /**
   * updateRemainingCollocations: drop from `all`, in order, every card whose id
   * is among the non-null used cards, and recompute the buckets.
   */
  function UpdateRemainingCollocations(remaining: RemainingCollocations, used: seq<Option<Collocation>>): (r: RemainingCollocations)
    ensures r.all == RemoveIds(remaining.all, UsedIds(used))
    ensures BucketsConsistent(r)
  {
    var all := RemoveIds(remaining.all, UsedIds(used));
    RemainingCollocations(all, BucketsOf(all))
  }

  /**
   * The updated `all` keeps exactly the old cards whose id was not used, in
   * their old order; no new card appears.
   */
  lemma UpdateRemovesExactlyUsed(remaining: RemainingCollocations, used: seq<Option<Collocation>>)
    ensures var r := UpdateRemainingCollocations(remaining, used);
      && IsSubsequence(r.all, remaining.all)
      && (forall c :: c in r.all <==> c in remaining.all && forall u :: u in NonNull(used) ==> u.id != c.id)
  {
    RemoveIdsIsSubsequence(remaining.all, UsedIds(used));
  }

  /** Applying the same update twice is applying it once. */
  lemma UpdateIdempotent(remaining: RemainingCollocations, used: seq<Option<Collocation>>)
    ensures UpdateRemainingCollocations(UpdateRemainingCollocations(remaining, used), used) ==
      UpdateRemainingCollocations(remaining, used)
  {
    RemoveIdsTwice(remaining.all, UsedIds(used), UsedIds(used));
    assert UsedIds(used) + UsedIds(used) == UsedIds(used);
  }

  /** Two updates in a row remove the cards of both turns. */
  lemma UpdateComposes(remaining: RemainingCollocations, first: seq<Option<Collocation>>, second: seq<Option<Collocation>>)
    ensures UpdateRemainingCollocations(UpdateRemainingCollocations(remaining, first), second) ==
      UpdateRemainingCollocations(remaining, first + second)
  {
    NonNullAppend(first, second);
    assert UsedIds(first + second) == UsedIds(first) + UsedIds(second);
    RemoveIdsTwice(remaining.all, UsedIds(first), UsedIds(second));
  }

  /** Updating with no card used leaves a freshly initialized pool unchanged. */
  lemma UpdateNothingUsed(deck: seq<Collocation>, used: seq<Option<Collocation>>)
    requires NonNull(used) == []
    ensures UpdateRemainingCollocations(InitializeRemainingCollocations(deck), used) == InitializeRemainingCollocations(deck)
  {
    assert UsedIds(used) == {};
    RemoveNoIds(deck);
  }

  lemma {:induction false} BucketsPartition(cards: seq<Collocation>)
    requires forall c :: c in cards ==> c.rhyming != Dash
    ensures |FilterRhyming(cards, A)| + |FilterRhyming(cards, B)| + |FilterRhyming(cards, C)| + |FilterRhyming(cards, D)| == |cards|
  {
    if cards != [] {
      assert cards[0] in cards;
      BucketsPartition(cards[1..]);
    }
  }

  /**
   * The initial pool copies the deck; its buckets hold the deck's cards of
   * each group and, when every card is in A to D, their sizes add up to the
   * deck's size.
   */
  lemma InitializePartitionsDeck(deck: seq<Collocation>)
    ensures var r := InitializeRemainingCollocations(deck);
      && r.all == deck
      && (forall g, c :: r.byRhyming.Get(g).Some? ==> (c in r.byRhyming.Get(g).value <==> c in deck && c.rhyming == g))
      && ((forall c :: c in deck ==> c.rhyming != Dash) ==>
          |r.byRhyming.a| + |r.byRhyming.b| + |r.byRhyming.c| + |r.byRhyming.d| == |deck|)
  {
    if forall c :: c in deck ==> c.rhyming != Dash {
      BucketsPartition(deck);
    }
  }

  /** The empty pool of a game not yet started. */
  const EMPTY_REMAINING := RemainingCollocations([], ByRhyming([], [], [], []))

  // ---------------------------------------------------------------------------
  // Opponent turn information
  // ---------------------------------------------------------------------------

  const UNKNOWN_HINT := "不明"

  /** generateEnemyTurnInfo: the collocation's text and tags with their two hints. */
  function GenerateEnemyTurnInfo(enemyCollocation: Collocation): (info: EnemyTurnInfo)
    ensures info.lyrics == enemyCollocation.text
    ensures info.ctype == enemyCollocation.ctype && info.rhyming == enemyCollocation.rhyming
    ensures enemyCollocation.ctype in TYPE_MOOD_HINTS && info.hintMood == TYPE_MOOD_HINTS[enemyCollocation.ctype]
    ensures enemyCollocation.rhyming != Dash ==>
      enemyCollocation.rhyming in RHYMING_HINTS && info.hintRhyming == RHYMING_HINTS[enemyCollocation.rhyming]
    ensures enemyCollocation.rhyming == Dash ==> info.hintRhyming == UNKNOWN_HINT
  {
    HintTablesTotal();
    var mood := TYPE_MOOD_HINTS[enemyCollocation.ctype];
    var g := enemyCollocation.rhyming;
    var hintMood := if mood != "" then mood else UNKNOWN_HINT;
    var hintRhyming := if g in RHYMING_HINTS && RHYMING_HINTS[g] != "" then RHYMING_HINTS[g] else UNKNOWN_HINT;
    EnemyTurnInfo(enemyCollocation.text, enemyCollocation.ctype, g, hintMood, hintRhyming)
  }

  // ---------------------------------------------------------------------------
  // Card annotations
  // ---------------------------------------------------------------------------

  /** The numbers a hint badge shows; its icon and wording are presentation. */
  datatype CardAnnotation =
    | ChainAnnotation(chainLength: nat, multiplier: real)
    | TypeMatchAnnotation(multiplier: real)
    | WarningAnnotation(rhyming: Rhyming, remaining: int)

  datatype AnnotationContext = AnnotationContext(
    selectedCollocations: seq<Option<Collocation>>,
    enemyType: Option<CollocationType>,
    remainingByRhyming: map<Rhyming, int>)

  /** The position of a badge kind: chain, then type match, then warning. */
  function KindRank(a: CardAnnotation): nat {
    match a
    case ChainAnnotation(_, _) => 0
    case TypeMatchAnnotation(_) => 1
    case WarningAnnotation(_, _) => 2
  }

  /** How many selected cards share `g`. */
  function SameRhymingCount(selected: seq<Option<Collocation>>, g: Rhyming): nat {
    Occurrences(RhymingsOf(NonNull(selected)), g)
  }

  /**
   * calculateCardAnnotations: at most one badge of each kind, in the order
   * chain, type match, warning; each present exactly when its condition holds.
   */
  method CalculateCardAnnotations(collocation: Collocation, context: AnnotationContext) returns (annotations: seq<CardAnnotation>)
    ensures |annotations| <= 3
    ensures forall i, j :: 0 <= i < j < |annotations| ==> KindRank(annotations[i]) < KindRank(annotations[j])
    ensures (exists a :: a in annotations && a.ChainAnnotation?) <==>
      collocation.rhyming != Dash && SameRhymingCount(context.selectedCollocations, collocation.rhyming) > 0
    ensures forall a :: a in annotations && a.ChainAnnotation? ==>
      a.chainLength == SameRhymingCount(context.selectedCollocations, collocation.rhyming) + 1 &&
      a.multiplier == ChainMultiplier(a.chainLength)
    ensures (exists a :: a in annotations && a.TypeMatchAnnotation?) <==>
      context.enemyType.Some? &&
      exists c :: c in TYPE_COMPATIBILITY_TABLE && c.enemyType == context.enemyType.value && c.effectiveType == collocation.ctype
    ensures forall a :: a in annotations && a.TypeMatchAnnotation? ==>
      TypeCompatibility(context.enemyType.value, collocation.ctype, a.multiplier) in TYPE_COMPATIBILITY_TABLE
    ensures (exists a :: a in annotations && a.WarningAnnotation?) <==>
      collocation.rhyming in context.remainingByRhyming && 0 < context.remainingByRhyming[collocation.rhyming] <= 2
    ensures forall a :: a in annotations && a.WarningAnnotation? ==>
      a.rhyming == collocation.rhyming && a.remaining == context.remainingByRhyming[collocation.rhyming]
  {
    var chain := ChainBadge(collocation, context);
    var typeMatch := TypeMatchBadge(collocation, context);
    var warning := WarningBadge(collocation, context);
    BadgesInOrder(chain, typeMatch, warning);
    annotations := chain + typeMatch + warning;
    if chain != [] {
      assert chain[0] in annotations;
    }
    if typeMatch != [] {
      assert typeMatch[0] in annotations;
    }
    if warning != [] {
      assert warning[0] in annotations;
    }
  }

  /** The chain badge: present when selected cards already share the card's rhyming group. */
  method ChainBadge(collocation: Collocation, context: AnnotationContext) returns (chain: seq<CardAnnotation>)
    ensures |chain| <= 1 && forall a :: a in chain ==> a.ChainAnnotation?
    ensures chain != [] <==> collocation.rhyming != Dash && SameRhymingCount(context.selectedCollocations, collocation.rhyming) > 0
    ensures forall a :: a in chain ==>
      a.chainLength == SameRhymingCount(context.selectedCollocations, collocation.rhyming) + 1 &&
      a.multiplier == ChainMultiplier(a.chainLength)
  {
    chain := [];
    var validSelected := NonNull(context.selectedCollocations);
    if |validSelected| > 0 && collocation.rhyming != Dash {
      var sameRhymingCount := SameRhymingCount(context.selectedCollocations, collocation.rhyming);
      if sameRhymingCount > 0 {
        var chainLength := sameRhymingCount + 1;
        chain := [ChainAnnotation(chainLength, ChainMultiplier(chainLength))];
      }
    } else if |validSelected| == 0 {
      assert RhymingsOf(validSelected) == [];
    }
  }

  /** The type-match badge: present when the table lists the card's type against the enemy's. */
  method TypeMatchBadge(collocation: Collocation, context: AnnotationContext) returns (typeMatch: seq<CardAnnotation>)
    ensures |typeMatch| <= 1 && forall a :: a in typeMatch ==> a.TypeMatchAnnotation?
    ensures typeMatch != [] <==>
      context.enemyType.Some? &&
      exists c :: c in TYPE_COMPATIBILITY_TABLE && c.enemyType == context.enemyType.value && c.effectiveType == collocation.ctype
    ensures forall a :: a in typeMatch ==>
      TypeCompatibility(context.enemyType.value, collocation.ctype, a.multiplier) in TYPE_COMPATIBILITY_TABLE
  {
    typeMatch := [];
    if context.enemyType.Some? {
      var compatibility := FindCompatibility(TYPE_COMPATIBILITY_TABLE, context.enemyType.value, collocation.ctype);
      if compatibility.Some? {
        assert compatibility.value in TYPE_COMPATIBILITY_TABLE;
        typeMatch := [TypeMatchAnnotation(compatibility.value.multiplier)];
      }
    }
  }

  /** The warning badge: present when one or two cards of the card's group remain. */
  method WarningBadge(collocation: Collocation, context: AnnotationContext) returns (warning: seq<CardAnnotation>)
    ensures |warning| <= 1 && forall a :: a in warning ==> a.WarningAnnotation?
    ensures warning != [] <==>
      collocation.rhyming in context.remainingByRhyming && 0 < context.remainingByRhyming[collocation.rhyming] <= 2
    ensures forall a :: a in warning ==>
      a.rhyming == collocation.rhyming && a.remaining == context.remainingByRhyming[collocation.rhyming]
  {
    warning := [];
    if collocation.rhyming in context.remainingByRhyming {
      var remaining := context.remainingByRhyming[collocation.rhyming];
      if remaining <= 2 && remaining > 0 {
        warning := [WarningAnnotation(collocation.rhyming, remaining)];
      }
    }
  }

  /** Badges of one kind each, listed chain first, then type match, then warning. */
  lemma BadgesInOrder(chain: seq<CardAnnotation>, typeMatch: seq<CardAnnotation>, warning: seq<CardAnnotation>)
    requires |chain| <= 1 && |typeMatch| <= 1 && |warning| <= 1
    requires forall a :: a in chain ==> a.ChainAnnotation?
    requires forall a :: a in typeMatch ==> a.TypeMatchAnnotation?
    requires forall a :: a in warning ==> a.WarningAnnotation?
    ensures var all := chain + typeMatch + warning;
      && |all| <= 3
      && (forall i, j :: 0 <= i < j < |all| ==> KindRank(all[i]) < KindRank(all[j]))
      && (forall a :: a in all && a.ChainAnnotation? <==> a in chain)
      && (forall a :: a in all && a.TypeMatchAnnotation? <==> a in typeMatch)
      && (forall a :: a in all && a.WarningAnnotation? <==> a in warning)
  {
    var all := chain + typeMatch + warning;
    forall k | 0 <= k < |all|
      ensures KindRank(all[k]) == if k < |chain| then 0 else if k < |chain| + |typeMatch| then 1 else 2
    {
      if k < |chain| {
        assert all[k] == chain[k] && chain[k] in chain;
      } else if k < |chain| + |typeMatch| {
        assert all[k] == typeMatch[k - |chain|] && typeMatch[k - |chain|] in typeMatch;
      } else {
        assert all[k] == warning[k - |chain| - |typeMatch|] && warning[k - |chain| - |typeMatch|] in warning;
      }
    }
  }
}
