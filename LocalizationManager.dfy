/**
 * `SupportedLanguage` with its property tables, and `LocalizationManager`: the current
 * language and the saved preference.
 *
 * `UserDefaults` is a store of strings by key (`PreferenceStore`); the manager reads and
 * writes only the key "selectedLanguage".
 */
module Localization {
  import opened Wrappers

  datatype LayoutDirection = LeftToRight | RightToLeft

  datatype SupportedLanguage = English | Arabic
  {
    function RawValue(): (raw: string)
      ensures raw == "en" <==> this == English
      ensures raw == "ar" <==> this == Arabic
    {
      match this
      case English => "en"
      case Arabic => "ar"
    }

    /** `SupportedLanguage(rawValue:)`. */
    static function FromRawValue(raw: string): (r: Option<SupportedLanguage>)
      ensures r.Some? <==> raw == "en" || raw == "ar"
      ensures r.Some? ==> r.value.RawValue() == raw
    {
      match raw
      case "en" => Some(English)
      case "ar" => Some(Arabic)
      case _ => None
    }

    /** The language's name, written in that language. */
    function DisplayName(): (name: string)
      ensures name == "English" <==> this == English
    {
      match this
      case English => "English"
      case Arabic => "العربية"
    }

    /** The Arabic font for Arabic, the Latin one for English. */
    function FontName(): (font: string)
      ensures font == "Cairo" <==> this == Arabic
    {
      match this
      case English => "Effra"
      case Arabic => "Cairo"
    }

    predicate IsRTL()
      ensures IsRTL() <==> RawValue() == "ar"
    {
      this == Arabic
    }

    /** The logo asset is named after the raw value. */
    function LogoImageName(): (logo: string)
      ensures logo == "logo_" + RawValue()
    {
      match this
      case English => "logo_en"
      case Arabic => "logo_ar"
    }

    /** The language `toggleLanguage` switches to. */
    function Toggled(): (other: SupportedLanguage)
      ensures other != this
    {
      match this
      case English => Arabic
      case Arabic => English
    }

    function Direction(): LayoutDirection {
      if IsRTL() then RightToLeft else LeftToRight
    }
  }

  /** The key of the saved preference. */
  const LanguageKey := "selectedLanguage"

  /** The language `init` starts with, given what is stored under the key (English unless it is a raw value). */
  function RestoredLanguage(saved: Option<string>): (l: SupportedLanguage)
    ensures saved.Some? && SupportedLanguage.FromRawValue(saved.value).Some? ==> l.RawValue() == saved.value
    ensures saved.None? || SupportedLanguage.FromRawValue(saved.value).None? ==> l == English
  {
    if saved.Some? && SupportedLanguage.FromRawValue(saved.value).Some? then
      SupportedLanguage.FromRawValue(saved.value).value
    else
      English
  }

  /** Reading a raw value gives back the language, for both languages. */
  lemma RawValueRoundTrip(l: SupportedLanguage)
    ensures SupportedLanguage.FromRawValue(l.RawValue()) == Some(l)
  {
  }

  /** Toggling is an involution. */
  lemma ToggleLanguageTwiceIsIdentity(l: SupportedLanguage)
    ensures l.Toggled().Toggled() == l
  {
  }

  /** Right-to-left layout exactly for Arabic. */
  lemma RightToLeftIffArabic(l: SupportedLanguage)
    ensures l.Direction() == RightToLeft <==> l == Arabic
  {
  }

  /** The two rows of the language table, and that no cell is shared between them. */
  lemma LanguageTable()
    ensures English.DisplayName() == "English" && English.FontName() == "Effra" && English.LogoImageName() == "logo_en"
    ensures Arabic.DisplayName() == "العربية" && Arabic.FontName() == "Cairo" && Arabic.LogoImageName() == "logo_ar"
    ensures English.DisplayName() != Arabic.DisplayName() && English.LogoImageName() != Arabic.LogoImageName()
  {
  }

  /** What `switchLanguage(to: l)` stores is what the next `init` restores. */
  lemma SavedLanguageIsRestored(stored: map<string, string>, l: SupportedLanguage)
    ensures RestoredLanguage(Lookup(stored[LanguageKey := l.RawValue()], LanguageKey)) == l
  {
  }

  // ---------------------------------------------------------------------------
  // The classes
  // ---------------------------------------------------------------------------

  /** `UserDefaults.standard`, as far as string values go. */
  class PreferenceStore {
    var strings: map<string, string>

    constructor (strings: map<string, string>)
      ensures this.strings == strings
    {
      this.strings := strings;
    }
  }

  class LocalizationManager {
    var currentLanguage: SupportedLanguage
    const defaults: PreferenceStore

    constructor (defaults: PreferenceStore)
      ensures this.defaults == defaults
      ensures currentLanguage == RestoredLanguage(Lookup(defaults.strings, LanguageKey))
    {
      this.defaults := defaults;
      var language := English;
      if LanguageKey in defaults.strings {
        var saved := SupportedLanguage.FromRawValue(defaults.strings[LanguageKey]);
        if saved.Some? {
          language := saved.value;
        }
      }
      currentLanguage := language;
    }

    method SwitchLanguage(language: SupportedLanguage)
      modifies this, defaults
      ensures currentLanguage == language
      ensures defaults.strings == old(defaults.strings)[LanguageKey := language.RawValue()]
    {
      currentLanguage := language;
      defaults.strings := defaults.strings[LanguageKey := language.RawValue()];
    }

    method ToggleLanguage()
      modifies this, defaults
      ensures currentLanguage == old(currentLanguage).Toggled()
      ensures defaults.strings == old(defaults.strings)[LanguageKey := currentLanguage.RawValue()]
    {
      match currentLanguage {
        case English => SwitchLanguage(Arabic);
        case Arabic => SwitchLanguage(English);
      }
    }

    function LayoutDirection(): (d: LayoutDirection)
      reads this
      ensures d == RightToLeft <==> currentLanguage == Arabic
    {
      currentLanguage.Direction()
    }
  }
}
