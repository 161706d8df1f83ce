/** The control panel: two mutually exclusive pop-over panels (language
    selector and settings), the language label, the Clear All button and the
    settings controls, all acting on the recognition context. */
module ControlPanel {
  import opened Types
  import opened Strings
  import opened RecognitionContext

  /** The choices the Max Alternatives select offers. */
  const MaxAlternativesChoices: seq<int> := [1, 2, 3, 4, 5]

  /** The label on the language button: `language.split('-')[0].toUpperCase()`. */
  function LanguageLabel(language: string): (shown: string)
    ensures |shown| == |BeforeFirst(language, '-')|
    ensures '-' !in shown
    ensures forall i :: 0 <= i < |shown| ==> shown[i] == UpperChar(language[i])
    ensures '-' !in language ==> shown == ToUpper(language)
  {
    var prefix := BeforeFirst(language, '-');
    var upper := ToUpper(prefix);
    assert forall i :: 0 <= i < |upper| ==> upper[i] == UpperChar(prefix[i]) && prefix[i] != '-';
    upper
  }

  /** The default language is shown as "FA". */
  lemma DefaultLanguageLabel()
    ensures LanguageLabel(DefaultSettings.language) == "FA"
  {
    assert BeforeFirst("fa-IR", '-') == "fa";
  }

  /** The Clear All button's `disabled` test. */
  predicate ClearDisabled(items: seq<TranscriptItem>) {
    |items| == 0
  }

  /** Choosing a language changes the language setting alone. */
  lemma SelectLanguageChangesOnlyLanguage(settings: Settings, language: string)
    ensures MergeSettings(settings, NoChange.(language := Some(language))) == settings.(language := language)
  {
  }

  /** The panel's own state: which pop-over is open. */
  class ControlPanel {
    var showLanguageSelector: bool
    var showSettings: bool
    const context: RecognitionProvider

    /** The two pop-overs are never open together. */
    ghost predicate Valid()
      reads this
    {
      !(showLanguageSelector && showSettings)
    }

    constructor (context: RecognitionProvider)
      ensures Valid() && !showLanguageSelector && !showSettings
      ensures this.context == context
    {
      showLanguageSelector := false;
      showSettings := false;
      this.context := context;
    }

    /** `toggleLanguageSelector`: flips the language pop-over and closes settings. */
    method ToggleLanguageSelector()
      modifies this`showLanguageSelector, this`showSettings
      ensures Valid()
      ensures showLanguageSelector == !old(showLanguageSelector) && !showSettings
    {
      showLanguageSelector := !showLanguageSelector;
      if showSettings {
        showSettings := false;
      }
    }

    /** `toggleSettings`: flips the settings pop-over and closes the language selector. */
    method ToggleSettings()
      modifies this`showLanguageSelector, this`showSettings
      ensures Valid()
      ensures showSettings == !old(showSettings) && !showLanguageSelector
    {
      showSettings := !showSettings;
      if showLanguageSelector {
        showLanguageSelector := false;
      }
    }

    /** `onSelectLanguage(lang)`: sets the language setting and closes the
        selector; only reachable while the selector is shown. */
    method SelectLanguage(language: string)
      requires Valid() && showLanguageSelector
      modifies this`showLanguageSelector, context`settings
      ensures Valid() && !showLanguageSelector && showSettings == old(showSettings)
      ensures context.settings == old(context.settings).(language := language)
    {
      context.UpdateSettings(NoChange.(language := Some(language)));
      SelectLanguageChangesOnlyLanguage(old(context.settings), language);
      showLanguageSelector := false;
    }

    /** The Continuous checkbox: sets `continuous` to the checked value. */
    method SetContinuous(checked: bool)
      requires showSettings
      modifies context`settings
      ensures context.settings == old(context.settings).(continuous := checked)
    {
      context.UpdateSettings(NoChange.(continuous := Some(checked)));
    }

    /** The Interim Results checkbox: sets `interimResults` to the checked value. */
    method SetInterimResults(checked: bool)
      requires showSettings
      modifies context`settings
      ensures context.settings == old(context.settings).(interimResults := checked)
    {
      context.UpdateSettings(NoChange.(interimResults := Some(checked)));
    }

    /** The Max Alternatives select: sets `maxAlternatives` to the chosen option. */
    method SetMaxAlternatives(value: int)
      requires showSettings && value in MaxAlternativesChoices
      modifies context`settings
      ensures 1 <= context.settings.maxAlternatives <= 5
      ensures context.settings == old(context.settings).(maxAlternatives := value)
    {
      context.UpdateSettings(NoChange.(maxAlternatives := Some(value)));
    }

    /** Clear All: empties the transcript; only reachable while the button is enabled. */
    method ClearAll()
      requires context.Valid() && !ClearDisabled(context.fullTranscript)
      modifies context`fullTranscript
      ensures context.Valid() && context.fullTranscript == []
    {
      context.ClearTranscript();
    }
  }
}
