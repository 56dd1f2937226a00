/** The opponent characters and their decks (lib/enemy-data.ts). */
module EnemyData {
  import opened Wrappers
  import opened Types
  import opened Tally
  import opened Constants
  import opened CollocationsData
  import GameLogic

  /** The message getRequiredCollocationById throws for an unknown id. */
  function NotFoundMessage(id: string): string {
    "Collocation with id " + ['"'] + id + ['"'] + " not found in COLLOCATIONS_DATA"
  }

  /** A lookup in `catalog` that fails with the thrown message when the id is unknown. */
  function Require(catalog: seq<Collocation>, id: string): (r: Result<Collocation, string>)
    ensures r.Success? <==> exists c :: c in catalog && c.id == id
    ensures r.Success? ==> r.value in catalog && r.value.id == id
    ensures r.Failure? ==> r.error == NotFoundMessage(id)
  {
    match FindById(catalog, id)
    case Some(c) => Success(c)
    case None => Failure(NotFoundMessage(id))
  }

  /** getRequiredCollocationById: the catalog card with that id, or the error it throws. */
  function GetRequiredCollocationById(id: string): (r: Result<Collocation, string>)
    ensures r.Success? <==> exists c :: c in COLLOCATIONS_DATA && c.id == id
    ensures r.Success? ==> r.value in COLLOCATIONS_DATA && r.value.id == id
    ensures r.Failure? ==> r.error == NotFoundMessage(id)
  {
    Require(COLLOCATIONS_DATA, id)
  }

  /**
   * A deck array literal of required lookups: the lookups run in order and
   * the first one that throws aborts the whole initializer.
   */
  function RequireAll(catalog: seq<Collocation>, ids: seq<string>): (r: Result<seq<Collocation>, string>)
    ensures r.Success? ==> |r.value| == |ids|
  {
    if ids == [] then Success([])
    else
      var head := Require(catalog, ids[0]);
      if head.Failure? then Failure(head.error)
      else
        var rest := RequireAll(catalog, ids[1..]);
        if rest.Failure? then Failure(rest.error)
        else Success([head.value] + rest.value)
  }

  /** The initializer succeeds exactly when every id is in the catalog. */
  lemma {:induction false} RequireAllSucceedsIffAllFound(catalog: seq<Collocation>, ids: seq<string>)
    ensures RequireAll(catalog, ids).Success? <==> forall i :: 0 <= i < |ids| ==> Require(catalog, ids[i]).Success?
  {
    if ids != [] {
      RequireAllSucceedsIffAllFound(catalog, ids[1..]);
      assert forall i :: 1 <= i < |ids| ==> ids[i] == ids[1..][i - 1];
    }
  }

  /** On success, position `i` holds the card looked up for `ids[i]`. */
  lemma {:induction false} RequireAllValues(catalog: seq<Collocation>, ids: seq<string>)
    requires RequireAll(catalog, ids).Success?
    ensures forall i :: 0 <= i < |ids| ==>
      Require(catalog, ids[i]).Success? && RequireAll(catalog, ids).value[i] == Require(catalog, ids[i]).value
  {
    if ids != [] {
      RequireAllValues(catalog, ids[1..]);
      assert forall i :: 1 <= i < |ids| ==> ids[i] == ids[1..][i - 1];
    }
  }

  /** On failure, the error is the message thrown for one of the ids, one the catalog lacks. */
  lemma {:induction false} RequireAllFailure(catalog: seq<Collocation>, ids: seq<string>)
    requires RequireAll(catalog, ids).Failure?
    ensures exists k :: (0 <= k < |ids| && Require(catalog, ids[k]).Failure? &&
                         RequireAll(catalog, ids).error == NotFoundMessage(ids[k]))
  {
    if Require(catalog, ids[0]).Failure? {
      assert Require(catalog, ids[0]).Failure? && RequireAll(catalog, ids).error == NotFoundMessage(ids[0]);
    } else {
      RequireAllFailure(catalog, ids[1..]);
      var k :| 0 <= k < |ids[1..]| && Require(catalog, ids[1..][k]).Failure? &&
        RequireAll(catalog, ids[1..]).error == NotFoundMessage(ids[1..][k]);
      assert ids[1..][k] == ids[k + 1];
    }
  }

  /** With distinct catalog ids, looking up the ids of catalog cards gives back those very cards. */
  lemma {:induction false} RequireAllOfMembers(catalog: seq<Collocation>, deck: seq<Collocation>)
    requires NoDuplicates(IdsOf(catalog))
    requires forall c :: c in deck ==> c in catalog
    ensures RequireAll(catalog, IdsOf(deck)) == Success(deck)
  {
    if deck != [] {
      assert deck[0] in deck;
      FindByIdOfMember(catalog, deck[0]);
      assert IdsOf(deck)[1..] == IdsOf(deck[1..]);
      RequireAllOfMembers(catalog, deck[1..]);
      assert deck == [deck[0]] + deck[1..];
    }
  }

  /** The deck of ストリート・ファイター, by id, in deck order. */
  const STREET_FIGHTER_DECK_IDS: seq<string> := [
    "a01", "a02", "a04", "b02", "b03", "c01", "d05", "d06",
    "b01", "b06", "c02", "d02", "d03",
    "a05", "a06", "b07", "c06",
    "a03", "b04", "d01"]

  /** Where each card of the deck sits in the catalog. */
  const STREET_FIGHTER_DECK_INDICES: seq<nat> := [
    0, 1, 3, 10, 11, 17, 28, 29,
    9, 14, 18, 25, 26,
    4, 5, 15, 22,
    2, 12, 24]

  /** The same deck as catalog entries. */
  const STREET_FIGHTER_DECK: seq<Collocation> := [
    COLLOCATIONS_DATA[0], COLLOCATIONS_DATA[1], COLLOCATIONS_DATA[3], COLLOCATIONS_DATA[10],
    COLLOCATIONS_DATA[11], COLLOCATIONS_DATA[17], COLLOCATIONS_DATA[28], COLLOCATIONS_DATA[29],
    COLLOCATIONS_DATA[9], COLLOCATIONS_DATA[14], COLLOCATIONS_DATA[18], COLLOCATIONS_DATA[25], COLLOCATIONS_DATA[26],
    COLLOCATIONS_DATA[4], COLLOCATIONS_DATA[5], COLLOCATIONS_DATA[15], COLLOCATIONS_DATA[22],
    COLLOCATIONS_DATA[2], COLLOCATIONS_DATA[12], COLLOCATIONS_DATA[24]]

  const STREET_FIGHTER_ID: string := "enemy-001"
  const STREET_FIGHTER_NAME: string := "ストリート・ファイター"
  const STREET_FIGHTER_DESCRIPTION: string := "バランス型の敵キャラクター。攻撃、挑発、自慢をバランスよく使用する。"

  const ENEMY_STREET_FIGHTER: EnemyCharacter :=
    EnemyCharacter(STREET_FIGHTER_ID, STREET_FIGHTER_NAME, STREET_FIGHTER_DESCRIPTION, STREET_FIGHTER_DECK)

  /** The module initializer that builds ストリート・ファイター, throwing on an unknown id. */
  function LoadStreetFighter(): Result<EnemyCharacter, string> {
    match RequireAll(COLLOCATIONS_DATA, STREET_FIGHTER_DECK_IDS)
    case Failure(e) => Failure(e)
    case Success(deck) => Success(EnemyCharacter(STREET_FIGHTER_ID, STREET_FIGHTER_NAME, STREET_FIGHTER_DESCRIPTION, deck))
  }

  lemma StreetFighterDeckIds()
    ensures IdsOf(STREET_FIGHTER_DECK) == STREET_FIGHTER_DECK_IDS
    ensures forall c :: c in STREET_FIGHTER_DECK ==> c in COLLOCATIONS_DATA
  {
  }

  /** Every id of the deck is in the catalog, so initializing never throws and yields ENEMY_STREET_FIGHTER. */
  lemma StreetFighterLoads()
    ensures LoadStreetFighter() == Success(ENEMY_STREET_FIGHTER)
  {
    StreetFighterDeckIds();
    CatalogIdsDistinct();
    RequireAllOfMembers(COLLOCATIONS_DATA, STREET_FIGHTER_DECK);
  }

  /** Cards picked from a catalog at distinct positions have distinct ids when the catalog's are. */
  lemma PickedCardsKeepIdsDistinct(catalog: seq<Collocation>, indices: seq<nat>, picked: seq<Collocation>)
    requires NoDuplicates(IdsOf(catalog)) && NoDuplicates(indices)
    requires |picked| == |indices|
    requires forall k :: 0 <= k < |indices| ==> indices[k] < |catalog| && picked[k] == catalog[indices[k]]
    ensures NoDuplicates(IdsOf(picked))
  {
    forall i, j | 0 <= i < j < |picked|
      ensures IdsOf(picked)[i] != IdsOf(picked)[j]
    {
      assert IdsOf(catalog)[indices[i]] != IdsOf(catalog)[indices[j]];
    }
  }

  /** The opponent's deck is a legal deck: 20 cards with pairwise distinct ids. */
  lemma StreetFighterDeckIsLegal()
    ensures MIN_DECK_SIZE <= |STREET_FIGHTER_DECK| <= MAX_DECK_SIZE
    ensures NoDuplicates(IdsOf(STREET_FIGHTER_DECK))
  {
    CatalogIdsDistinct();
    assert NoDuplicates(STREET_FIGHTER_DECK_INDICES);
    PickedCardsKeepIdsDistinct(COLLOCATIONS_DATA, STREET_FIGHTER_DECK_INDICES, STREET_FIGHTER_DECK);
  }

  /** The deck is listed as eight #攻撃, five #自慢, four #カウンター, then three #夢中 cards. */
  lemma StreetFighterTypes()
    ensures GameLogic.TypesOf(STREET_FIGHTER_DECK) ==
      [Attack, Attack, Attack, Attack, Attack, Attack, Attack, Attack]
      + [Boast, Boast, Boast, Boast, Boast] + [Counter, Counter, Counter, Counter] + [Immersed, Immersed, Immersed]
  {
  }

  /** The opponent's deck holds 8 #攻撃, 5 #自慢, 4 #カウンター and 3 #夢中 cards. */
  lemma StreetFighterDeckIsBalanced()
    ensures var types := GameLogic.TypesOf(STREET_FIGHTER_DECK);
      && Occurrences(types, Attack) == 8 && Occurrences(types, Boast) == 5
      && Occurrences(types, Counter) == 4 && Occurrences(types, Immersed) == 3
  {
    StreetFighterTypes();
    CountsOfTypeBlocks([Attack, Attack, Attack, Attack, Attack, Attack, Attack, Attack],
      [Boast, Boast, Boast, Boast, Boast], [Counter, Counter, Counter, Counter], [Immersed, Immersed, Immersed]);
  }

  /** Four blocks, each of one type, hold as many cards of each type as the block of that type is long. */
  lemma CountsOfTypeBlocks(attack: seq<CollocationType>, boast: seq<CollocationType>,
                           counter: seq<CollocationType>, immersed: seq<CollocationType>)
    requires forall i :: 0 <= i < |attack| ==> attack[i] == Attack
    requires forall i :: 0 <= i < |boast| ==> boast[i] == Boast
    requires forall i :: 0 <= i < |counter| ==> counter[i] == Counter
    requires forall i :: 0 <= i < |immersed| ==> immersed[i] == Immersed
    ensures var types := attack + boast + counter + immersed;
      && Occurrences(types, Attack) == |attack| && Occurrences(types, Boast) == |boast|
      && Occurrences(types, Counter) == |counter| && Occurrences(types, Immersed) == |immersed|
  {
    forall t ensures Occurrences(attack + boast + counter + immersed, t) ==
      Occurrences(attack, t) + Occurrences(boast, t) + Occurrences(counter, t) + Occurrences(immersed, t)
    {
      OccurrencesAppend(attack, boast, t);
      OccurrencesAppend(attack + boast, counter, t);
      OccurrencesAppend(attack + boast + counter, immersed, t);
    }
    forall t ensures Occurrences(attack, t) == if t == Attack then |attack| else 0 {
      OccurrencesOfBlock(attack, Attack, t);
    }
    forall t ensures Occurrences(boast, t) == if t == Boast then |boast| else 0 {
      OccurrencesOfBlock(boast, Boast, t);
    }
    forall t ensures Occurrences(counter, t) == if t == Counter then |counter| else 0 {
      OccurrencesOfBlock(counter, Counter, t);
    }
    forall t ensures Occurrences(immersed, t) == if t == Immersed then |immersed| else 0 {
      OccurrencesOfBlock(immersed, Immersed, t);
    }
  }

  const ENEMY_CHARACTERS: seq<EnemyCharacter> := [ENEMY_STREET_FIGHTER]

  /** `enemies.find(e => e.id === id)`. */
  function FindEnemy(enemies: seq<EnemyCharacter>, id: string): (r: Option<EnemyCharacter>)
    ensures r.Some? ==> r.value in enemies && r.value.id == id
    ensures r.None? <==> forall e :: e in enemies ==> e.id != id
  {
    if enemies == [] then None
    else if enemies[0].id == id then Some(enemies[0])
    else
      assert enemies == [enemies[0]] + enemies[1..];
      FindEnemy(enemies[1..], id)
  }

  /** getEnemyById: only "enemy-001" is known. */
  function GetEnemyById(id: string): (r: Option<EnemyCharacter>)
    ensures r.Some? <==> id == STREET_FIGHTER_ID
    ensures r.Some? ==> r.value == ENEMY_STREET_FIGHTER
  {
    FindEnemy(ENEMY_CHARACTERS, id)
  }

  /** getDefaultEnemy: a listed character that its own id looks up. */
  function GetDefaultEnemy(): (e: EnemyCharacter)
    ensures e in ENEMY_CHARACTERS
    ensures GetEnemyById(e.id) == Some(e)
  {
    ENEMY_STREET_FIGHTER
  }
}
