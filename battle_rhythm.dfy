/**
 * The attack-phase rhythm game (hooks/useBattleRhythm.ts): the timeline of a
 * turn's cards and fillers at 120 BPM, the judging of taps on the main and the
 * filler buttons, and the combo counter.
 *
 * The hook's timers and animation frames become events (`CountdownTick`,
 * `BeginPlay`, `Frame`) that receive the clock reading; the random fillers are
 * supplied by the caller.
 */
module BattleRhythm {
  import opened Wrappers
  import opened Types
  import opened GameLogic

  const BPM: nat := 120
  /** One beat at 120 BPM, in ms. */
  const BEAT_DURATION: nat := 500
  /** Eleven beats: four two-beat cards and three one-beat fillers. */
  const TOTAL_DURATION: nat := 5500

  lemma BeatTiming()
    ensures BEAT_DURATION == 60000 / BPM
    ensures TOTAL_DURATION == 11 * BEAT_DURATION
    ensures TOTAL_DURATION == 4 * (2 * BEAT_DURATION) + 3 * BEAT_DURATION
  {
  }

  // ---------------------------------------------------------------------------
  // Timeline
  // ---------------------------------------------------------------------------

  datatype ItemKind = CollocationItem | FillerItem

  /** One slot of the timeline; `filler` is set on filler items only. */
  datatype TimelineItem = TimelineItem(
    kind: ItemKind,
    content: string,
    startTime: int,
    duration: int,
    id: nat,
    filler: Option<Filler>)

  /** The number of items for `n` cards: a filler between each two neighbours. */
  function TimelineLength(n: nat): nat {
    if n == 0 then 0 else 2 * n - 1
  }

  /**
   * Item `k` of the timeline, in closed form: even positions hold card `k / 2`
   * for two beats, odd positions the filler drawn for gap `k / 2` for one beat;
   * every card-and-filler pair takes three beats.
   */
  function ItemAt(cards: seq<Collocation>, fillers: seq<Filler>, k: nat): TimelineItem
    requires k / 2 < |cards|
    requires k % 2 == 1 ==> k / 2 < |fillers|
  {
    var start := 3 * BEAT_DURATION * (k / 2) + 2 * BEAT_DURATION * (k % 2);
    if k % 2 == 0 then
      TimelineItem(CollocationItem, cards[k / 2].text, start, 2 * BEAT_DURATION, k, None)
    else
      TimelineItem(FillerItem, fillers[k / 2].text, start, BEAT_DURATION, k, Some(fillers[k / 2]))
  }

  /** `t` is the timeline for `cards`, with `fillers[i]` drawn for the gap after card `i`. */
  predicate IsTimelineOf(t: seq<TimelineItem>, cards: seq<Collocation>, fillers: seq<Filler>) {
    && |fillers| + 1 >= |cards|
    && |t| == TimelineLength(|cards|)
    && forall k :: 0 <= k < |t| ==> k / 2 < |cards| && t[k] == ItemAt(cards, fillers, k)
  }

  /**
   * The timeline effect: the non-null cards, each followed (except the last)
   * by a filler, laid out back to back from time 0 with ids counting up.
   * `fillers` are the results of the successive random filler draws.
   */
  method BuildTimeline(collocations: seq<Option<Collocation>>, fillers: seq<Filler>) returns (timeline: seq<TimelineItem>)
    requires |fillers| + 1 >= |NonNull(collocations)|
    ensures IsTimelineOf(timeline, NonNull(collocations), fillers)
  {
    var cards := NonNull(collocations);
    var n := |cards|;
    timeline := [];
    var currentPos := 0;
    var idCounter: nat := 0;
    for i := 0 to n
      invariant |timeline| == (if i == n && n > 0 then 2 * i - 1 else 2 * i)
      invariant currentPos == 3 * BEAT_DURATION * i - (if i == n && n > 0 then BEAT_DURATION else 0)
      invariant idCounter == |timeline|
      invariant forall k :: 0 <= k < |timeline| ==> k / 2 < n && timeline[k] == ItemAt(cards, fillers, k)
    {
      var k := idCounter;
      assert k / 2 == i && k % 2 == 0;
      timeline := timeline + [TimelineItem(CollocationItem, cards[i].text, currentPos, BEAT_DURATION * 2, idCounter, None)];
      idCounter := idCounter + 1;
      currentPos := currentPos + BEAT_DURATION * 2;
      if i < n - 1 {
        var filler := fillers[i];
        assert (k + 1) / 2 == i && (k + 1) % 2 == 1;
        timeline := timeline + [TimelineItem(FillerItem, filler.text, currentPos, BEAT_DURATION, idCounter, Some(filler))];
        idCounter := idCounter + 1;
        currentPos := currentPos + BEAT_DURATION;
      }
    }
  }

  function End(item: TimelineItem): int {
    item.startTime + item.duration
  }

  /** Item `k` starts where item `k - 1` ends. */
  predicate Meets(t: seq<TimelineItem>, k: nat)
    requires 1 <= k < |t|
  {
    t[k].startTime == End(t[k - 1])
  }

  /** Each item starts where the previous one ends. */
  predicate Contiguous(t: seq<TimelineItem>) {
    forall k :: 1 <= k < |t| ==> Meets(t, k)
  }

  /** Every item lasts a positive time. */
  predicate PositiveDurations(t: seq<TimelineItem>) {
    forall k :: 0 <= k < |t| ==> t[k].duration > 0
  }

  /** Every item carries its position as id. */
  predicate NumberedInOrder(t: seq<TimelineItem>) {
    forall k :: 0 <= k < |t| ==> t[k].id == k
  }

  /** Consecutive items of the closed form meet: item `k` starts where item `k - 1` ends. */
  lemma ItemsMeet(cards: seq<Collocation>, fillers: seq<Filler>, k: nat)
    requires 1 <= k && k / 2 < |cards| && (k - 1) / 2 < |fillers|
    ensures (k - 1) % 2 == 1 ==> (k - 1) / 2 < |fillers|
    ensures k % 2 == 1 ==> k / 2 < |fillers|
    ensures ItemAt(cards, fillers, k).startTime == End(ItemAt(cards, fillers, k - 1))
  {
    if k % 2 == 0 {
      assert (k - 1) / 2 == k / 2 - 1 && (k - 1) % 2 == 1;
    } else {
      assert (k - 1) / 2 == k / 2 && (k - 1) % 2 == 0;
    }
  }

  /** A built timeline has no gaps or overlaps, positive durations and ids counting up from 0. */
  lemma TimelineIsBackToBack(t: seq<TimelineItem>, cards: seq<Collocation>, fillers: seq<Filler>)
    requires IsTimelineOf(t, cards, fillers)
    ensures Contiguous(t) && PositiveDurations(t) && NumberedInOrder(t)
  {
    forall k | 1 <= k < |t|
      ensures Meets(t, k)
    {
      assert (k - 1) / 2 < |fillers|;
      ItemsMeet(cards, fillers, k);
      assert t[k] == ItemAt(cards, fillers, k);
      assert t[k - 1] == ItemAt(cards, fillers, k - 1);
    }
  }

  /**
   * A built timeline starts at 0 and ends after three beats per card less the
   * filler that the last card does not get; cards sit at the even positions.
   */
  lemma TimelineSpan(t: seq<TimelineItem>, cards: seq<Collocation>, fillers: seq<Filler>)
    requires IsTimelineOf(t, cards, fillers)
    ensures |t| > 0 ==> t[0].startTime == 0 && End(t[|t| - 1]) == 3 * BEAT_DURATION * |cards| - BEAT_DURATION
    ensures forall k :: 0 <= k < |t| ==> (t[k].kind == CollocationItem <==> k % 2 == 0)
  {
    if |t| > 0 {
      assert t[0] == ItemAt(cards, fillers, 0);
      var last := |t| - 1;
      assert last == 2 * (|cards| - 1);
      assert last / 2 == |cards| - 1 && last % 2 == 0;
      assert t[last] == ItemAt(cards, fillers, last);
      assert t[last].startTime == 3 * BEAT_DURATION * (|cards| - 1);
      assert t[last].duration == 2 * BEAT_DURATION;
    }
  }

  /** Four cards fill the eleven beats exactly: seven items, the last ending at 5500 ms. */
  lemma FourCardsFillTheBar(t: seq<TimelineItem>, cards: seq<Collocation>, fillers: seq<Filler>)
    requires IsTimelineOf(t, cards, fillers) && |cards| == 4
    ensures |t| == 7 && t[0].startTime == 0 && End(t[6]) == TOTAL_DURATION
  {
    TimelineSpan(t, cards, fillers);
  }

  /** `item` is on screen at `time`. */
  predicate Covers(item: TimelineItem, time: int) {
    item.startTime <= time < End(item)
  }

  /** activeItem: the first item on screen at `time`, if any. */
  function ActiveItem(timeline: seq<TimelineItem>, time: int): (r: Option<TimelineItem>)
    ensures r.Some? ==> r.value in timeline && Covers(r.value, time)
    ensures r.None? <==> forall k :: 0 <= k < |timeline| ==> !Covers(timeline[k], time)
  {
    if timeline == [] then None
    else if Covers(timeline[0], time) then Some(timeline[0])
    else ActiveItem(timeline[1..], time)
  }

  /** In a contiguous timeline of positive durations, an earlier item ends before a later one starts. */
  lemma {:induction false} ContiguousOrdered(t: seq<TimelineItem>, i: nat, j: nat)
    requires Contiguous(t) && PositiveDurations(t)
    requires i < j < |t|
    ensures End(t[i]) <= t[j].startTime
  {
    assert Meets(t, j);
    if j > i + 1 {
      ContiguousOrdered(t, i, j - 1);
    }
  }

  lemma ContiguousTail(t: seq<TimelineItem>)
    requires |t| > 0 && Contiguous(t)
    ensures Contiguous(t[1..])
  {
    forall k | 1 <= k < |t| - 1
      ensures Meets(t[1..], k)
    {
      assert Meets(t, k + 1);
      assert t[1..][k] == t[k + 1] && t[1..][k - 1] == t[k];
    }
  }

  /**
   * Items never overlap, so the active item is THE item covering the time:
   * whichever item covers `time` is the one `ActiveItem` finds.
   */
  lemma {:induction false} ActiveItemIsTheCoveringItem(t: seq<TimelineItem>, time: int, k: nat)
    requires Contiguous(t) && PositiveDurations(t)
    requires k < |t| && Covers(t[k], time)
    ensures ActiveItem(t, time) == Some(t[k])
  {
    if k == 0 {
    } else if Covers(t[0], time) {
      ContiguousOrdered(t, 0, k);
      assert false;
    } else {
      ContiguousTail(t);
      assert t[1..][k - 1] == t[k];
      ActiveItemIsTheCoveringItem(t[1..], time, k - 1);
    }
  }

  /** An earlier item ends before a later item starts, so in a gap-free run the covering items tile the span. */
  lemma {:induction false} ContiguousCoversSpan(t: seq<TimelineItem>, time: int)
    requires Contiguous(t) && PositiveDurations(t)
    requires |t| > 0 && t[0].startTime <= time < End(t[|t| - 1])
    ensures ActiveItem(t, time).Some?
  {
    if !Covers(t[0], time) {
      assert |t| > 1 && Meets(t, 1);
      ContiguousTail(t);
      assert t[1..][|t| - 2] == t[|t| - 1];
      ContiguousCoversSpan(t[1..], time);
    }
  }

  /**
   * During card `i`'s two beats the active item is that card, so a tap on the
   * main button is judged against it.
   */
  lemma CardIsActiveDuringItsBeats(t: seq<TimelineItem>, cards: seq<Collocation>, fillers: seq<Filler>, i: nat, time: int)
    requires IsTimelineOf(t, cards, fillers)
    requires i < |cards|
    requires 3 * BEAT_DURATION * i <= time < 3 * BEAT_DURATION * i + 2 * BEAT_DURATION
    ensures 2 * i < |t|
    ensures ActiveItem(t, time) == Some(t[2 * i])
    ensures t[2 * i].kind == CollocationItem && t[2 * i].content == cards[i].text
    ensures t[2 * i].startTime == 3 * BEAT_DURATION * i
  {
    TimelineIsBackToBack(t, cards, fillers);
    assert (2 * i) / 2 == i && (2 * i) % 2 == 0;
    assert t[2 * i] == ItemAt(cards, fillers, 2 * i);
    ActiveItemIsTheCoveringItem(t, time, 2 * i);
  }

  /** Nothing is active before the first item starts or after the last one ends. */
  lemma ActiveOnlyWithinSpan(t: seq<TimelineItem>, time: int)
    requires Contiguous(t) && PositiveDurations(t) && |t| > 0
    requires ActiveItem(t, time).Some?
    ensures t[0].startTime <= time < End(t[|t| - 1])
  {
    var k := ActiveIndex(t, time);
    if k > 0 {
      ContiguousOrdered(t, 0, k);
    }
    if k < |t| - 1 {
      ContiguousOrdered(t, k, |t| - 1);
    }
  }

  /** The position of the active item. */
  lemma {:induction false} ActiveIndex(t: seq<TimelineItem>, time: int) returns (k: nat)
    requires ActiveItem(t, time).Some?
    ensures k < |t| && t[k] == ActiveItem(t, time).value && Covers(t[k], time)
  {
    if Covers(t[0], time) {
      k := 0;
    } else {
      var j := ActiveIndex(t[1..], time);
      k := j + 1;
    }
  }

  /**
   * Exactly while the rhythm runs, some item is active: every time from 0 up
   * to the end of the last card has one, and no time outside does.
   */
  lemma ActiveExactlyWithinSpan(t: seq<TimelineItem>, cards: seq<Collocation>, fillers: seq<Filler>, time: int)
    requires IsTimelineOf(t, cards, fillers) && |cards| > 0
    ensures ActiveItem(t, time).Some? <==> 0 <= time < 3 * BEAT_DURATION * |cards| - BEAT_DURATION
  {
    TimelineIsBackToBack(t, cards, fillers);
    TimelineSpan(t, cards, fillers);
    if ActiveItem(t, time).Some? {
      ActiveOnlyWithinSpan(t, time);
    } else if 0 <= time < 3 * BEAT_DURATION * |cards| - BEAT_DURATION {
      ContiguousCoversSpan(t, time);
    }
  }

  // ---------------------------------------------------------------------------
  // Judging taps
  // ---------------------------------------------------------------------------

  function Abs(x: int): nat {
    if x < 0 then -x else x
  }

  /** Half-widths of the judgement windows, in ms. */
  const PERFECT_WINDOW: nat := 100
  const GOOD_WINDOW: nat := 200
  const BAD_WINDOW: nat := 300

  /**
   * calculateJudgement: a tap within 100 ms of the target is Perfect, within
   * 200 ms Good, within 300 ms Bad, otherwise Miss (all bounds exclusive).
   */
  function CalculateJudgement(tapTime: int, targetTime: int): (j: TapJudgement)
    ensures j == Perfect <==> Abs(tapTime - targetTime) < PERFECT_WINDOW
    ensures j == Good <==> PERFECT_WINDOW <= Abs(tapTime - targetTime) < GOOD_WINDOW
    ensures j == Bad <==> GOOD_WINDOW <= Abs(tapTime - targetTime) < BAD_WINDOW
    ensures j == Miss <==> BAD_WINDOW <= Abs(tapTime - targetTime)
  {
    var diff := Abs(tapTime - targetTime);
    if diff < PERFECT_WINDOW then Perfect
    else if diff < GOOD_WINDOW then Good
    else if diff < BAD_WINDOW then Bad
    else Miss
  }

  /** Early and late taps are judged alike, and a closer tap never earns fewer points. */
  lemma JudgementFavoursCloserTaps(tap1: int, tap2: int, target: int)
    ensures CalculateJudgement(target - (tap1 - target), target) == CalculateJudgement(tap1, target)
    ensures Abs(tap1 - target) <= Abs(tap2 - target) ==>
      Constants.TapScore(CalculateJudgement(tap1, target)) >= Constants.TapScore(CalculateJudgement(tap2, target))
  {
  }

  /**
   * The beat nearest to `time` as Math.round(time / 500) * 500 picks it: the
   * multiple of 500 whose distance is under half a beat, a tie going to the later beat.
   */
  function NearestBeatTime(time: int): (b: int)
    ensures b % BEAT_DURATION == 0
    ensures -(BEAT_DURATION / 2) <= time - b < BEAT_DURATION / 2
  {
    var beatIndex := Round(time as real / BEAT_DURATION as real);
    RoundIsNearest(time as real / BEAT_DURATION as real);
    beatIndex * BEAT_DURATION
  }

  /** `Math.round(x)` lies within half a unit of `x`, halves going up. */
  lemma RoundIsNearest(x: real)
    ensures -0.5 <= x - Round(x) as real < 0.5
  {
  }

  /** Only one multiple of a beat lies in any half-open window one beat wide. */
  lemma OneBeatPerWindow(time: int, b1: int, b2: int)
    requires b1 % BEAT_DURATION == 0 && b2 % BEAT_DURATION == 0
    requires -(BEAT_DURATION / 2) <= time - b1 < BEAT_DURATION / 2
    requires -(BEAT_DURATION / 2) <= time - b2 < BEAT_DURATION / 2
    ensures b1 == b2
  {
    assert b1 == BEAT_DURATION * (b1 / BEAT_DURATION);
    assert b2 == BEAT_DURATION * (b2 / BEAT_DURATION);
  }

  /**
   * The filler button judges a tap against the nearest beat. Since that beat is
   * never more than 250 ms away, a filler tap is never a Miss.
   */
  function FillerJudgement(time: int): (j: TapJudgement)
    ensures j != Miss
    ensures j == CalculateJudgement(time, NearestBeatTime(time))
  {
    CalculateJudgement(time, NearestBeatTime(time))
  }

  /** The filler judgement repeats every beat. */
  lemma FillerJudgementRepeatsEachBeat(time: int)
    ensures NearestBeatTime(time + BEAT_DURATION) == NearestBeatTime(time) + BEAT_DURATION
    ensures FillerJudgement(time + BEAT_DURATION) == FillerJudgement(time)
  {
    OneBeatPerWindow(time + BEAT_DURATION, NearestBeatTime(time + BEAT_DURATION), NearestBeatTime(time) + BEAT_DURATION);
  }

  // ---------------------------------------------------------------------------
  // Combo
  // ---------------------------------------------------------------------------

  /** Perfect and Good keep the combo going; Bad and Miss break it. */
  predicate IsHit(j: TapJudgement) {
    j == Perfect || j == Good
  }

  /** The combo counter and the best combo so far. */
  datatype Combo = Combo(current: nat, best: nat)

  /** updateCombo. */
  function ComboStep(c: Combo, j: TapJudgement): Combo {
    if IsHit(j) then Combo(c.current + 1, if c.best > c.current + 1 then c.best else c.current + 1)
    else Combo(0, c.best)
  }

  /** The combo state after the judgements `js`, in order, from a fresh start. */
  function ComboOf(js: seq<TapJudgement>): (c: Combo)
    ensures c.current <= c.best
  {
    if js == [] then Combo(0, 0) else ComboStep(ComboOf(js[..|js| - 1]), js[|js| - 1])
  }

  /** Every judgement in `js[i..j]` is a hit. */
  predicate AllHits(js: seq<TapJudgement>, i: nat, j: nat)
    requires i <= j <= |js|
  {
    forall k :: i <= k < j ==> IsHit(js[k])
  }

  /**
   * The combo counts the hits since the last Bad or Miss: the last `current`
   * judgements are hits and the one before them, if any, is not.
   */
  lemma {:induction false} ComboIsTrailingStreak(js: seq<TapJudgement>)
    ensures ComboOf(js).current <= |js|
    ensures AllHits(js, |js| - ComboOf(js).current, |js|)
    ensures ComboOf(js).current < |js| ==> !IsHit(js[|js| - 1 - ComboOf(js).current])
  {
    if js != [] {
      var init := js[..|js| - 1];
      ComboIsTrailingStreak(init);
      assert forall k :: 0 <= k < |init| ==> init[k] == js[k];
    }
  }

  /** Every run of consecutive hits is at most the best combo. */
  lemma {:induction false} StreakWithinBest(js: seq<TapJudgement>, i: nat, j: nat)
    requires i <= j <= |js| && AllHits(js, i, j)
    ensures j - i <= ComboOf(js).best
  {
    if j < |js| {
      var init := js[..|js| - 1];
      assert forall k :: 0 <= k < |init| ==> init[k] == js[k];
      StreakWithinBest(init, i, j);
    } else if i < j {
      var init := js[..|js| - 1];
      assert forall k :: 0 <= k < |init| ==> init[k] == js[k];
      StreakEndsInCombo(init, i);
    }
  }

  /** A run of hits reaching the end of `js` is at most the current combo. */
  lemma {:induction false} StreakEndsInCombo(js: seq<TapJudgement>, i: nat)
    requires i <= |js| && AllHits(js, i, |js|)
    ensures |js| - i <= ComboOf(js).current
  {
    if i < |js| {
      var init := js[..|js| - 1];
      assert forall k :: 0 <= k < |init| ==> init[k] == js[k];
      StreakEndsInCombo(init, i);
    }
  }

  /** `js[i..i + len]` is a run of `len` hits. */
  predicate RunAt(js: seq<TapJudgement>, i: nat, len: nat) {
    i + len <= |js| && AllHits(js, i, i + len)
  }

  /** The best combo is attained: some run of exactly that many hits occurred. */
  lemma {:induction false} BestIsAttained(js: seq<TapJudgement>)
    ensures exists i: nat :: RunAt(js, i, ComboOf(js).best)
  {
    if js == [] {
      assert RunAt(js, 0, ComboOf(js).best);
    } else {
      var init := js[..|js| - 1];
      assert forall k :: 0 <= k < |init| ==> init[k] == js[k];
      var c := ComboOf(js);
      if c.best == ComboOf(init).best {
        BestIsAttained(init);
        var i: nat :| RunAt(init, i, c.best);
        assert RunAt(js, i, c.best);
      } else {
        ComboIsTrailingStreak(js);
        assert RunAt(js, |js| - c.best, c.best);
      }
    }
  }

  // ---------------------------------------------------------------------------
  // The hook's state
  // ---------------------------------------------------------------------------

  /** One judged tap on the main button, for the timeline item `id`. */
  datatype CollocationTap = CollocationTap(id: nat, judgement: TapJudgement, timestamp: int)

  /** `collocationTaps.some(t => t.id === id)`. */
  predicate AlreadyTapped(taps: seq<CollocationTap>, id: nat) {
    exists i :: 0 <= i < |taps| && taps[i].id == id
  }

  /**
   * The state of one attack phase. The timers of the hook are the events
   * `CountdownTick` (every 800 ms), `BeginPlay` (500 ms after the countdown)
   * and `Frame` (each animation frame, with the clock reading `now`);
   * `ClearLastJudgement` is the 500 ms timeout after a tap.
   */
  class RhythmSession {
    var timeline: seq<TimelineItem>
    var currentTime: int
    var isPlaying: bool
    var isFinished: bool
    var countDown: nat
    var startTime: int
    var tapResults: seq<FillerTapResult>
    var collocationTaps: seq<CollocationTap>
    var lastJudgement: Option<TapJudgement>
    var combo: nat
    var maxCombo: nat
    /** Every judgement so far, main and filler taps interleaved as they happened. */
    ghost var judged: seq<TapJudgement>

    /**
     * The timeline is laid out back to back; the combo pair is the combo of all
     * judgements so far; each card is tapped at most once, and only cards are;
     * no filler tap is a Miss.
     */
    ghost predicate Valid()
      reads this
    {
      && Contiguous(timeline) && PositiveDurations(timeline) && NumberedInOrder(timeline)
      && Combo(combo, maxCombo) == ComboOf(judged)
      && |judged| == |tapResults| + |collocationTaps|
      && (forall i, j :: 0 <= i < j < |collocationTaps| ==> collocationTaps[i].id != collocationTaps[j].id)
      && (forall i :: 0 <= i < |collocationTaps| ==>
            collocationTaps[i].id < |timeline| && timeline[collocationTaps[i].id].kind == CollocationItem)
      && (forall i :: 0 <= i < |tapResults| ==> tapResults[i].judgement != Miss)
    }

    /** Mounting the hook: the timeline is built at once and the countdown starts at 3. */
    constructor(collocations: seq<Option<Collocation>>, fillers: seq<Filler>)
      requires |fillers| + 1 >= |NonNull(collocations)|
      ensures Valid()
      ensures IsTimelineOf(timeline, NonNull(collocations), fillers)
      ensures currentTime == 0 && !isPlaying && !isFinished && countDown == 3
      ensures tapResults == [] && collocationTaps == [] && lastJudgement == None
      ensures combo == 0 && maxCombo == 0
    {
      var t := BuildTimeline(collocations, fillers);
      TimelineIsBackToBack(t, NonNull(collocations), fillers);
      timeline := t;
      currentTime := 0;
      isPlaying := false;
      isFinished := false;
      countDown := 3;
      startTime := 0;
      tapResults := [];
      collocationTaps := [];
      lastJudgement := None;
      combo := 0;
      maxCombo := 0;
      judged := [];
    }

    /** The countdown interval: 3, 2, 1, then 0, where it stays. */
    method CountdownTick()
      requires Valid()
      modifies this
      ensures Valid()
      ensures countDown == (if old(countDown) <= 1 then 0 else old(countDown) - 1)
      ensures isPlaying == old(isPlaying) && startTime == old(startTime) && currentTime == old(currentTime)
      ensures timeline == old(timeline) && tapResults == old(tapResults) && collocationTaps == old(collocationTaps)
      ensures combo == old(combo) && maxCombo == old(maxCombo) && isFinished == old(isFinished)
      ensures lastJudgement == old(lastJudgement)
    {
      if countDown <= 1 {
        countDown := 0;
      } else {
        countDown := countDown - 1;
      }
    }

    /** Half a second after the countdown: playing starts with the clock at `now`. */
    method BeginPlay(now: int)
      requires Valid()
      modifies this
      ensures Valid()
      ensures countDown == 0 && isPlaying && startTime == now
      ensures currentTime == old(currentTime) && isFinished == old(isFinished)
      ensures timeline == old(timeline) && tapResults == old(tapResults) && collocationTaps == old(collocationTaps)
      ensures combo == old(combo) && maxCombo == old(maxCombo) && lastJudgement == old(lastJudgement)
    {
      countDown := 0;
      isPlaying := true;
      startTime := now;
    }

    /**
     * An animation frame at clock reading `now`: while playing, the elapsed
     * time becomes the current time, and from 5500 ms on the phase is over.
     * Frames do nothing while not playing.
     */
    method Frame(now: int)
      requires Valid()
      modifies this
      ensures Valid()
      ensures old(isPlaying) ==> currentTime == now - startTime
      ensures old(isPlaying) ==> (isPlaying <==> now - startTime < TOTAL_DURATION)
      ensures old(isPlaying) ==> (isFinished <==> old(isFinished) || now - startTime >= TOTAL_DURATION)
      ensures !old(isPlaying) ==> !isPlaying && currentTime == old(currentTime) && isFinished == old(isFinished)
      ensures startTime == old(startTime) && countDown == old(countDown)
      ensures timeline == old(timeline) && tapResults == old(tapResults) && collocationTaps == old(collocationTaps)
      ensures combo == old(combo) && maxCombo == old(maxCombo) && lastJudgement == old(lastJudgement)
    {
      if isPlaying {
        var elapsed := now - startTime;
        currentTime := elapsed;
        if elapsed >= TOTAL_DURATION {
          isPlaying := false;
          isFinished := true;
        }
      }
    }

    /** updateCombo: advance the combo by one judgement. */
    method UpdateCombo(judgement: TapJudgement)
      modifies this
      ensures Combo(combo, maxCombo) == ComboStep(old(Combo(combo, maxCombo)), judgement)
      ensures judged == old(judged) + [judgement]
      ensures timeline == old(timeline) && tapResults == old(tapResults) && collocationTaps == old(collocationTaps)
      ensures currentTime == old(currentTime) && isPlaying == old(isPlaying) && isFinished == old(isFinished)
      ensures startTime == old(startTime) && countDown == old(countDown) && lastJudgement == old(lastJudgement)
    {
      if judgement == Perfect || judgement == Good {
        var newCombo := combo + 1;
        combo := newCombo;
        maxCombo := if maxCombo > newCombo then maxCombo else newCombo;
      } else {
        combo := 0;
      }
      judged := judged + [judgement];
    }

    /**
     * handleMainTap: a tap while a card is active and not yet tapped is judged
     * against the card's start and recorded; any other tap is ignored.
     */
    method HandleMainTap()
      requires Valid()
      modifies this
      ensures Valid()
      ensures var item := ActiveItem(old(timeline), old(currentTime));
        if item.Some? && item.value.kind == CollocationItem && !AlreadyTapped(old(collocationTaps), item.value.id) then
          var j := CalculateJudgement(currentTime, item.value.startTime);
          && collocationTaps == old(collocationTaps) + [CollocationTap(item.value.id, j, currentTime)]
          && lastJudgement == Some(j)
          && Combo(combo, maxCombo) == ComboStep(old(Combo(combo, maxCombo)), j)
        else
          && collocationTaps == old(collocationTaps) && lastJudgement == old(lastJudgement)
          && combo == old(combo) && maxCombo == old(maxCombo)
      ensures timeline == old(timeline) && tapResults == old(tapResults) && currentTime == old(currentTime)
      ensures isPlaying == old(isPlaying) && isFinished == old(isFinished)
      ensures startTime == old(startTime) && countDown == old(countDown)
    {
      var item := ActiveItem(timeline, currentTime);
      if item.None? || item.value.kind != CollocationItem {
        return;
      }
      if AlreadyTapped(collocationTaps, item.value.id) {
        return;
      }
      var k :| 0 <= k < |timeline| && timeline[k] == item.value;
      var judgement := CalculateJudgement(currentTime, item.value.startTime);
      collocationTaps := collocationTaps + [CollocationTap(item.value.id, judgement, currentTime)];
      lastJudgement := Some(judgement);
      UpdateCombo(judgement);
    }

    /**
     * handleFillerTap: judged against the nearest beat (never a Miss) and
     * recorded with the filler `filler` drawn for it.
     */
    method HandleFillerTap(filler: Filler)
      requires Valid()
      modifies this
      ensures Valid()
      ensures var j := FillerJudgement(currentTime);
        && tapResults == old(tapResults) + [FillerTapResult(filler, j, currentTime)]
        && lastJudgement == Some(j)
        && Combo(combo, maxCombo) == ComboStep(old(Combo(combo, maxCombo)), j)
      ensures timeline == old(timeline) && collocationTaps == old(collocationTaps) && currentTime == old(currentTime)
      ensures isPlaying == old(isPlaying) && isFinished == old(isFinished)
      ensures startTime == old(startTime) && countDown == old(countDown)
    {
      var judgement := FillerJudgement(currentTime);
      tapResults := tapResults + [FillerTapResult(filler, judgement, currentTime)];
      lastJudgement := Some(judgement);
      UpdateCombo(judgement);
    }

    /** The 500 ms timeout after a tap hides the last judgement. */
    method ClearLastJudgement()
      requires Valid()
      modifies this
      ensures Valid()
      ensures lastJudgement == None
      ensures timeline == old(timeline) && tapResults == old(tapResults) && collocationTaps == old(collocationTaps)
      ensures currentTime == old(currentTime) && isPlaying == old(isPlaying) && isFinished == old(isFinished)
      ensures combo == old(combo) && maxCombo == old(maxCombo)
      ensures startTime == old(startTime) && countDown == old(countDown)
    {
      lastJudgement := None;
    }
  }
}
