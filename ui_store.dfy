/**
 * The UI slice (lib/stores/ui.store.ts): the player's support settings, merged
 * field by field from partial updates, and the error state that switches the
 * game to the error screen.
 */
module UIStore {
  import opened Wrappers
  import opened Types

  /** How lenient tap judging is meant to be ("easy" | "normal" | "hard"). */
  datatype TapJudgementSetting = Easy | Normal | Hard

  datatype UISupportSettings = UISupportSettings(
    hintsEnabled: bool,
    deckDisplayEnabled: bool,
    chainPredictionEnabled: bool,
    typeMatchingEnabled: bool,
    comboTimeLimit: int,
    tapJudgement: TapJudgementSetting,
    bgmVolume: int,
    seVolume: int)

  /** `Partial<UISupportSettings>`: a field is `None` when the update leaves it out. */
  datatype PartialSettings = PartialSettings(
    hintsEnabled: Option<bool>,
    deckDisplayEnabled: Option<bool>,
    chainPredictionEnabled: Option<bool>,
    typeMatchingEnabled: Option<bool>,
    comboTimeLimit: Option<int>,
    tapJudgement: Option<TapJudgementSetting>,
    bgmVolume: Option<int>,
    seVolume: Option<int>)

  const NO_CHANGES := PartialSettings(None, None, None, None, None, None, None, None)

  /** initialUISupportSettings. */
  const INITIAL_UI_SUPPORT := UISupportSettings(true, true, true, true, 8, Normal, 70, 80)

  /** Every support aid starts on, with an 8 s combo limit, normal judging and volumes 70 and 80. */
  lemma InitialSettings()
    ensures var s := INITIAL_UI_SUPPORT;
      && s.hintsEnabled && s.deckDisplayEnabled && s.chainPredictionEnabled && s.typeMatchingEnabled
      && s.comboTimeLimit == 8 && s.tapJudgement == Normal
      && s.bgmVolume == 70 && s.seVolume == 80
  {
  }

  function Pick<T>(update: Option<T>, current: T): T {
    if update.Some? then update.value else current
  }

  /** `{...settings, ...partial}`: each field present in `partial` wins, every other field is kept. */
  function Merge(settings: UISupportSettings, partial: PartialSettings): (r: UISupportSettings)
    ensures r.hintsEnabled == Pick(partial.hintsEnabled, settings.hintsEnabled)
    ensures r.deckDisplayEnabled == Pick(partial.deckDisplayEnabled, settings.deckDisplayEnabled)
    ensures r.chainPredictionEnabled == Pick(partial.chainPredictionEnabled, settings.chainPredictionEnabled)
    ensures r.typeMatchingEnabled == Pick(partial.typeMatchingEnabled, settings.typeMatchingEnabled)
    ensures r.comboTimeLimit == Pick(partial.comboTimeLimit, settings.comboTimeLimit)
    ensures r.tapJudgement == Pick(partial.tapJudgement, settings.tapJudgement)
    ensures r.bgmVolume == Pick(partial.bgmVolume, settings.bgmVolume)
    ensures r.seVolume == Pick(partial.seVolume, settings.seVolume)
  {
    UISupportSettings(
      Pick(partial.hintsEnabled, settings.hintsEnabled),
      Pick(partial.deckDisplayEnabled, settings.deckDisplayEnabled),
      Pick(partial.chainPredictionEnabled, settings.chainPredictionEnabled),
      Pick(partial.typeMatchingEnabled, settings.typeMatchingEnabled),
      Pick(partial.comboTimeLimit, settings.comboTimeLimit),
      Pick(partial.tapJudgement, settings.tapJudgement),
      Pick(partial.bgmVolume, settings.bgmVolume),
      Pick(partial.seVolume, settings.seVolume))
  }

  /** Two partial updates as one, the later one winning where both set a field. */
  function Then(first: PartialSettings, second: PartialSettings): PartialSettings {
    PartialSettings(
      if second.hintsEnabled.Some? then second.hintsEnabled else first.hintsEnabled,
      if second.deckDisplayEnabled.Some? then second.deckDisplayEnabled else first.deckDisplayEnabled,
      if second.chainPredictionEnabled.Some? then second.chainPredictionEnabled else first.chainPredictionEnabled,
      if second.typeMatchingEnabled.Some? then second.typeMatchingEnabled else first.typeMatchingEnabled,
      if second.comboTimeLimit.Some? then second.comboTimeLimit else first.comboTimeLimit,
      if second.tapJudgement.Some? then second.tapJudgement else first.tapJudgement,
      if second.bgmVolume.Some? then second.bgmVolume else first.bgmVolume,
      if second.seVolume.Some? then second.seVolume else first.seVolume)
  }

  /** An empty update changes nothing. */
  lemma MergeNothing(settings: UISupportSettings)
    ensures Merge(settings, NO_CHANGES) == settings
  {
  }

  /** Applying the same update twice is applying it once. */
  lemma MergeIdempotent(settings: UISupportSettings, partial: PartialSettings)
    ensures Merge(Merge(settings, partial), partial) == Merge(settings, partial)
  {
  }

  /** Two updates in a row are one update with the later values winning. */
  lemma MergeComposes(settings: UISupportSettings, first: PartialSettings, second: PartialSettings)
    ensures Merge(Merge(settings, first), second) == Merge(settings, Then(first, second))
  {
  }

  /** An update that sets every field yields exactly those values, whatever the old settings. */
  lemma MergeFullOverwrites(settings: UISupportSettings, full: UISupportSettings)
    ensures Merge(settings, PartialSettings(
      Some(full.hintsEnabled), Some(full.deckDisplayEnabled), Some(full.chainPredictionEnabled),
      Some(full.typeMatchingEnabled), Some(full.comboTimeLimit), Some(full.tapJudgement),
      Some(full.bgmVolume), Some(full.seVolume))) == full
  {
  }

  /** The screen after `setError`: the error screen for an error, otherwise the current one. */
  function ScreenAfterError(errorType: Option<ErrorType>, current: GameScreen): (screen: GameScreen)
    ensures errorType.Some? ==> screen == Error
    ensures errorType.None? ==> screen == current
  {
    if errorType.Some? then Error else current
  }

  /**
   * The UI slice. It is typed to sit beside a `currentScreen` field and a
   * `setScreen` action, which it does not own; setError writes the screen.
   */
  class UISlice {
    var uiSupport: UISupportSettings
    var errorType: Option<ErrorType>
    var currentScreen: GameScreen

    constructor(screen: GameScreen)
      ensures uiSupport == INITIAL_UI_SUPPORT && errorType == None && currentScreen == screen
    {
      uiSupport := INITIAL_UI_SUPPORT;
      errorType := None;
      currentScreen := screen;
    }

    /** updateUISupportSettings: merge the partial into the settings; nothing else changes. */
    method UpdateUISupportSettings(partial: PartialSettings)
      modifies this
      ensures uiSupport == Merge(old(uiSupport), partial)
      ensures errorType == old(errorType) && currentScreen == old(currentScreen)
    {
      uiSupport := Merge(uiSupport, partial);
    }

    /** setError: record the error; a non-null error also shows the error screen. */
    method SetError(e: Option<ErrorType>)
      modifies this
      ensures errorType == e
      ensures e.Some? ==> currentScreen == Error
      ensures e.None? ==> currentScreen == old(currentScreen)
      ensures uiSupport == old(uiSupport)
    {
      errorType := e;
      currentScreen := ScreenAfterError(e, currentScreen);
    }
  }
}
