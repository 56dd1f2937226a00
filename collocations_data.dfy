/** The catalog of the 32 phrase cards and its lookups (lib/collocations-data.ts). */
module CollocationsData {
  import opened Wrappers
  import opened Types
  import opened Tally
  import GameLogic

  /** Group A, the "〜い" rhymes. */
  const GROUP_A: seq<Collocation> := [
    Collocation("a01", "じいちゃんの銀歯みたい", Attack, A),
    Collocation("a02", "綺麗ごとで耳が痛い", Attack, A),
    Collocation("a03", "常に前だけ見てる後ろ見ない", Immersed, A),
    Collocation("a04", "これはただの消化試合", Attack, A),
    Collocation("a05", "そんなの関係ない", Counter, A),
    Collocation("a06", "お前こそ痛い", Counter, A),
    Collocation("a07", "まだまだ言葉がいい足りない", Immersed, A),
    Collocation("a08", "ポルシェをもう一台買いたい", Boast, A),
    Collocation("a09", "君はここで敗退", Attack, A)
  ]

  /** Group B, the "〜あ" rhymes. */
  const GROUP_B: seq<Collocation> := [
    Collocation("b01", "ここで抜く刀", Boast, B),
    Collocation("b02", "大丈夫か頭", Attack, B),
    Collocation("b03", "勝てると思うな馬鹿が", Attack, B),
    Collocation("b04", "あがってく心と体", Immersed, B),
    Collocation("b05", "陸に上がった魚", Attack, B),
    Collocation("b06", "おれは日本の宝", Boast, B),
    Collocation("b07", "お前のスキルまだまだだ", Counter, B),
    Collocation("b08", "それじゃおれには敵わん", Counter, B)
  ]

  /** Group C, the "〜ん" rhymes. */
  const GROUP_C: seq<Collocation> := [
    Collocation("c01", "おまえはここではお客さん", Attack, C),
    Collocation("c02", "ここでかます爆弾", Boast, C),
    Collocation("c03", "はじめますかまずは", Immersed, C),
    Collocation("c04", "見せつけるお前との落差", Boast, C),
    Collocation("c05", "俺のリスナーがたくさん", Boast, C),
    Collocation("c06", "言葉返すサルが", Counter, C),
    Collocation("c07", "きかない言葉の軽さ", Counter, C)
  ]

  /** Group D, the "〜イフ" rhymes. */
  const GROUP_D: seq<Collocation> := [
    Collocation("d01", "これがマイライフ", Immersed, D),
    Collocation("d02", "パンパンになった財布", Boast, D),
    Collocation("d03", "言葉はまるでナイフ", Boast, D),
    Collocation("d04", "ありがとう今日のライブ", Immersed, D),
    Collocation("d05", "たいしたことない小細工", Attack, D),
    Collocation("d06", "いらないアドバイス", Attack, D),
    Collocation("d07", "返してもらうマイク", Counter, D),
    Collocation("d08", "それはラップじゃなくて俳句", Counter, D)
  ]

  const COLLOCATIONS_DATA: seq<Collocation> := GROUP_A + GROUP_B + GROUP_C + GROUP_D

  /** `cards.filter(c => c.type === t)`. */
  function FilterType(cards: seq<Collocation>, t: CollocationType): (r: seq<Collocation>)
    ensures |r| <= |cards|
    ensures forall c :: c in r <==> c in cards && c.ctype == t
  {
    if cards == [] then []
    else
      assert cards == [cards[0]] + cards[1..];
      (if cards[0].ctype == t then [cards[0]] else []) + FilterType(cards[1..], t)
  }

  /** `cards.find(c => c.id === id)`: the first card with that id. */
  function FindById(cards: seq<Collocation>, id: string): (r: Option<Collocation>)
    ensures r.Some? ==> r.value in cards && r.value.id == id
    ensures r.None? <==> forall c :: c in cards ==> c.id != id
  {
    if cards == [] then None
    else if cards[0].id == id then Some(cards[0])
    else
      assert cards == [cards[0]] + cards[1..];
      FindById(cards[1..], id)
  }

  /** getCollocationsByRhyming: the catalog's cards of one group, in catalog order. */
  function GetCollocationsByRhyming(g: Rhyming): (r: seq<Collocation>)
    ensures forall c :: c in r <==> c in COLLOCATIONS_DATA && c.rhyming == g
  {
    GameLogic.FilterRhyming(COLLOCATIONS_DATA, g)
  }

  /** getCollocationsByType: the catalog's cards of one type, in catalog order. */
  function GetCollocationsByType(t: CollocationType): (r: seq<Collocation>)
    ensures forall c :: c in r <==> c in COLLOCATIONS_DATA && c.ctype == t
  {
    FilterType(COLLOCATIONS_DATA, t)
  }

  /** getCollocationById: the catalog card with that id, if there is one. */
  function GetCollocationById(id: string): (r: Option<Collocation>)
    ensures r.Some? ==> r.value in COLLOCATIONS_DATA && r.value.id == id
    ensures r.None? <==> forall c :: c in COLLOCATIONS_DATA ==> c.id != id
  {
    FindById(COLLOCATIONS_DATA, id)
  }

  /** The ids of a sequence of cards, in order. */
  function IdsOf(cards: seq<Collocation>): seq<string> {
    seq(|cards|, i requires 0 <= i < |cards| => cards[i].id)
  }

  /** With distinct ids, looking up a card's id returns that card. */
  lemma {:induction false} FindByIdOfMember(cards: seq<Collocation>, c: Collocation)
    requires NoDuplicates(IdsOf(cards))
    requires c in cards
    ensures FindById(cards, c.id) == Some(c)
  {
    if cards[0] != c {
      assert IdsOf(cards[1..]) == IdsOf(cards)[1..];
      var k :| 0 <= k < |cards| && cards[k] == c;
      assert IdsOf(cards)[0] != IdsOf(cards)[k];
      FindByIdOfMember(cards[1..], c);
    }
  }

  lemma {:induction false} FilterTypeAppend(a: seq<Collocation>, b: seq<Collocation>, t: CollocationType)
    ensures FilterType(a + b, t) == FilterType(a, t) + FilterType(b, t)
  {
    if a == [] {
      assert a + b == b;
    } else {
      assert (a + b)[1..] == a[1..] + b;
      FilterTypeAppend(a[1..], b, t);
    }
  }

  lemma {:induction false} FilterRhymingAppend(a: seq<Collocation>, b: seq<Collocation>, g: Rhyming)
    ensures GameLogic.FilterRhyming(a + b, g) == GameLogic.FilterRhyming(a, g) + GameLogic.FilterRhyming(b, g)
  {
    if a == [] {
      assert a + b == b;
    } else {
      assert (a + b)[1..] == a[1..] + b;
      FilterRhymingAppend(a[1..], b, g);
    }
  }

  /** Every id in `cards` is non-empty and starts with one of `letters`. */
  predicate IdsStartWith(cards: seq<Collocation>, letters: set<char>) {
    forall c :: c in cards ==> |c.id| > 0 && c.id[0] in letters
  }

  /** Cards with distinct ids and disjoint leading letters can be joined keeping the ids distinct. */
  lemma JoinDistinctIds(a: seq<Collocation>, b: seq<Collocation>, la: set<char>, lb: set<char>)
    requires NoDuplicates(IdsOf(a)) && IdsStartWith(a, la)
    requires NoDuplicates(IdsOf(b)) && IdsStartWith(b, lb)
    requires la !! lb
    ensures NoDuplicates(IdsOf(a + b)) && IdsStartWith(a + b, la + lb)
  {
    var ids := IdsOf(a + b);
    forall i, j | 0 <= i < j < |ids| ensures ids[i] != ids[j] {
      if j < |a| {
        assert ids[i] == IdsOf(a)[i] && ids[j] == IdsOf(a)[j];
      } else if i >= |a| {
        assert ids[i] == IdsOf(b)[i - |a|] && ids[j] == IdsOf(b)[j - |a|];
      } else {
        assert a[i] in a && b[j - |a|] in b;
      }
    }
  }

  /** Cards whose every id starts with `letter`. */
  lemma IdsLeadWith(cards: seq<Collocation>, letter: char)
    requires forall k :: 0 <= k < |IdsOf(cards)| ==> |IdsOf(cards)[k]| > 0 && IdsOf(cards)[k][0] == letter
    ensures IdsStartWith(cards, {letter})
  {
    forall c | c in cards
      ensures |c.id| > 0 && c.id[0] == letter
    {
      var k :| 0 <= k < |cards| && cards[k] == c;
      assert IdsOf(cards)[k] == c.id;
    }
  }

  lemma GroupADistinct()
    ensures NoDuplicates(IdsOf(GROUP_A)) && IdsStartWith(GROUP_A, {'a'})
  {
    var ids := ["a01", "a02", "a03", "a04", "a05", "a06", "a07", "a08", "a09"];
    assert IdsOf(GROUP_A) == ids;
    assert NoDuplicates(ids);
    IdsLeadWith(GROUP_A, 'a');
  }

  lemma GroupBDistinct()
    ensures NoDuplicates(IdsOf(GROUP_B)) && IdsStartWith(GROUP_B, {'b'})
  {
    var ids := ["b01", "b02", "b03", "b04", "b05", "b06", "b07", "b08"];
    assert IdsOf(GROUP_B) == ids;
    assert NoDuplicates(ids);
    IdsLeadWith(GROUP_B, 'b');
  }

  lemma GroupCDistinct()
    ensures NoDuplicates(IdsOf(GROUP_C)) && IdsStartWith(GROUP_C, {'c'})
  {
    var ids := ["c01", "c02", "c03", "c04", "c05", "c06", "c07"];
    assert IdsOf(GROUP_C) == ids;
    assert NoDuplicates(ids);
    IdsLeadWith(GROUP_C, 'c');
  }

  lemma GroupDDistinct()
    ensures NoDuplicates(IdsOf(GROUP_D)) && IdsStartWith(GROUP_D, {'d'})
  {
    var ids := ["d01", "d02", "d03", "d04", "d05", "d06", "d07", "d08"];
    assert IdsOf(GROUP_D) == ids;
    assert NoDuplicates(ids);
    IdsLeadWith(GROUP_D, 'd');
  }

  /** The 32 catalog ids are pairwise distinct. */
  lemma CatalogIdsDistinct()
    ensures NoDuplicates(IdsOf(COLLOCATIONS_DATA))
  {
    GroupADistinct();
    GroupBDistinct();
    GroupCDistinct();
    GroupDDistinct();
    JoinDistinctIds(GROUP_A, GROUP_B, {'a'}, {'b'});
    JoinDistinctIds(GROUP_A + GROUP_B, GROUP_C, {'a', 'b'}, {'c'});
    JoinDistinctIds(GROUP_A + GROUP_B + GROUP_C, GROUP_D, {'a', 'b', 'c'}, {'d'});
  }

  /** Looking up the id of any catalog card returns that card. */
  lemma GetCollocationByIdRoundTrip(c: Collocation)
    requires c in COLLOCATIONS_DATA
    ensures GetCollocationById(c.id) == Some(c)
  {
    CatalogIdsDistinct();
    FindByIdOfMember(COLLOCATIONS_DATA, c);
  }

  /** Filtering a block whose cards all share group `own` keeps all of it for `own`, none of it otherwise. */
  lemma {:induction false} FilterBlock(cards: seq<Collocation>, own: Rhyming, g: Rhyming)
    requires forall c :: c in cards ==> c.rhyming == own
    ensures GameLogic.FilterRhyming(cards, g) == if g == own then cards else []
  {
    if cards != [] {
      assert cards[0] in cards;
      FilterBlock(cards[1..], own, g);
    }
  }

  /** Each block holds only cards of its own group. */
  lemma BlocksHomogeneous()
    ensures forall c :: c in GROUP_A ==> c.rhyming == A
    ensures forall c :: c in GROUP_B ==> c.rhyming == B
    ensures forall c :: c in GROUP_C ==> c.rhyming == C
    ensures forall c :: c in GROUP_D ==> c.rhyming == D
  {
    GroupAHomogeneous();
    GroupBHomogeneous();
    GroupCHomogeneous();
    GroupDHomogeneous();
  }

  lemma GroupAHomogeneous() ensures forall c :: c in GROUP_A ==> c.rhyming == A {}
  lemma GroupBHomogeneous() ensures forall c :: c in GROUP_B ==> c.rhyming == B {}
  lemma GroupCHomogeneous() ensures forall c :: c in GROUP_C ==> c.rhyming == C {}
  lemma GroupDHomogeneous() ensures forall c :: c in GROUP_D ==> c.rhyming == D {}

  /** Filtering four homogeneous blocks of groups A, B, C and D picks out one block. */
  lemma FilterOfBlocks(a: seq<Collocation>, b: seq<Collocation>, c: seq<Collocation>, d: seq<Collocation>, g: Rhyming)
    requires forall x :: x in a ==> x.rhyming == A
    requires forall x :: x in b ==> x.rhyming == B
    requires forall x :: x in c ==> x.rhyming == C
    requires forall x :: x in d ==> x.rhyming == D
    ensures GameLogic.FilterRhyming(a + b + c + d, g) ==
      match g
      case A => a
      case B => b
      case C => c
      case D => d
      case Dash => []
  {
    FilterRhymingAppend(a, b, g);
    FilterRhymingAppend(a + b, c, g);
    FilterRhymingAppend(a + b + c, d, g);
    var fa, fb, fc, fd := GameLogic.FilterRhyming(a, g), GameLogic.FilterRhyming(b, g),
      GameLogic.FilterRhyming(c, g), GameLogic.FilterRhyming(d, g);
    assert GameLogic.FilterRhyming(a + b + c + d, g) == fa + fb + fc + fd;
    FilterBlock(a, A, g);
    FilterBlock(b, B, g);
    FilterBlock(c, C, g);
    FilterBlock(d, D, g);
    match g
    case A => assert fa + fb + fc + fd == a + [] + [] + [] == a;
    case B => assert fa + fb + fc + fd == [] + b + [] + [] == b;
    case C => assert fa + fb + fc + fd == [] + [] + c + [] == c;
    case D => assert fa + fb + fc + fd == [] + [] + [] + d == d;
    case Dash => assert fa + fb + fc + fd == [] + [] + [] + [];
  }

  /** The lookup of group `g` is the catalog block of that group. */
  lemma GroupLookup(g: Rhyming)
    ensures GetCollocationsByRhyming(g) ==
      match g
      case A => GROUP_A
      case B => GROUP_B
      case C => GROUP_C
      case D => GROUP_D
      case Dash => []
  {
    BlocksHomogeneous();
    FilterOfBlocks(GROUP_A, GROUP_B, GROUP_C, GROUP_D, g);
  }

  /**
   * Each group lookup returns exactly its block of the catalog: 9, 8, 7 and 8
   * cards, 32 in all, and nothing for "-".
   */
  lemma RhymingGroupsPartitionCatalog()
    ensures |GetCollocationsByRhyming(A)| == 9 && |GetCollocationsByRhyming(B)| == 8
    ensures |GetCollocationsByRhyming(C)| == 7 && |GetCollocationsByRhyming(D)| == 8
    ensures GetCollocationsByRhyming(Dash) == []
    ensures |COLLOCATIONS_DATA| == 32
  {
    GroupLookup(A);
    GroupLookup(B);
    GroupLookup(C);
    GroupLookup(D);
    GroupLookup(Dash);
  }

  lemma {:induction false} TypeFiltersPartition(cards: seq<Collocation>)
    ensures |FilterType(cards, Attack)| + |FilterType(cards, Boast)| + |FilterType(cards, Immersed)| + |FilterType(cards, Counter)| == |cards|
  {
    if cards != [] {
      TypeFiltersPartition(cards[1..]);
    }
  }

  /** The four type lookups split the catalog: every card is returned by exactly one of them. */
  lemma TypeLookupsPartitionCatalog()
    ensures |GetCollocationsByType(Attack)| + |GetCollocationsByType(Boast)| +
      |GetCollocationsByType(Immersed)| + |GetCollocationsByType(Counter)| == 32
    ensures forall c, t :: c in COLLOCATIONS_DATA ==> (c in GetCollocationsByType(t) <==> c.ctype == t)
  {
    TypeFiltersPartition(COLLOCATIONS_DATA);
  }

  /**
   * A catalog hand that reaches the highest turn total: a05, a06, a03 and a08
   * (all group A; two #カウンター, one #夢中, one #自慢) with three Perfect taps
   * against #攻撃 score 205.
   */
  lemma CatalogHandScores205(fillerTapResults: seq<FillerTapResult>)
    requires |fillerTapResults| == 3 && forall i :: 0 <= i < 3 ==> fillerTapResults[i].judgement == Perfect
    ensures var hand := [COLLOCATIONS_DATA[4], COLLOCATIONS_DATA[5], COLLOCATIONS_DATA[2], COLLOCATIONS_DATA[7]];
      && [hand[0].id, hand[1].id, hand[2].id, hand[3].id] == ["a05", "a06", "a03", "a08"]
      && GameLogic.CalculateTurnResult([Some(hand[0]), Some(hand[1]), Some(hand[2]), Some(hand[3])], Attack, fillerTapResults).totalScore == 205
  {
    assert COLLOCATIONS_DATA[..9] == GROUP_A;
    var hand := [Some(GROUP_A[4]), Some(GROUP_A[5]), Some(GROUP_A[2]), Some(GROUP_A[7])];
    GameLogic.BestTurnScores205(hand, A, fillerTapResults);
  }
}
