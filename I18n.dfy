/**
 * Language selection of src/i18n/index.ts: the supported codes, the device
 * fallback, and the `'language'` entry of the key/value store that
 * `getSavedLanguage` and `saveLanguage` read and write.
 *
 * The device's best match (`findBestLanguageTag`) is an input; the store is a
 * map from keys to strings.
 */
module I18n {
  import opened Common

  const SupportedLanguages: seq<string> := ["en", "es", "fr", "de", "it", "pt", "ja", "ko", "zh", "ar", "hi", "ru"]

  /** The languages that ship translations, and the one i18next falls back to. */
  const Resources: set<string> := {"en", "hi"}
  const FallbackLanguage := "en"

  const LanguageKey := "language"

  predicate IsSupported(code: string) {
    code in SupportedLanguages
  }

  /** Translations exist for two of the twelve supported codes, the fallback among them. */
  lemma ResourcesAreSupported()
    ensures |SupportedLanguages| == 12
    ensures forall code :: code in Resources ==> IsSupported(code)
    ensures FallbackLanguage in Resources
    ensures IsSupported("fr") && "fr" !in Resources
  {
  }

  /** `getDeviceLanguage`: the best match's tag, or `en` when there is none or it is empty. */
  function DeviceLanguage(bestMatch: Option<string>): (code: string)
    ensures bestMatch.None? || bestMatch.value == "" ==> code == "en"
    ensures bestMatch.Some? && bestMatch.value != "" ==> code == bestMatch.value
  {
    if bestMatch.Some? && bestMatch.value != "" then bestMatch.value else "en"
  }

  /** The device language is supported whenever the matcher returns a supported tag, as it does by design. */
  lemma DeviceLanguageSupported(bestMatch: Option<string>)
    requires bestMatch.Some? ==> IsSupported(bestMatch.value)
    ensures IsSupported(DeviceLanguage(bestMatch))
  {
  }

  class LanguageStore {
    var entries: map<string, string>

    constructor (initial: map<string, string>)
      ensures entries == initial
    {
      entries := initial;
    }

    /** `saveLanguage(language)`: only a supported code is written. */
    method SaveLanguage(language: string)
      modifies this
      ensures IsSupported(language) ==> entries == old(entries)[LanguageKey := language]
      ensures !IsSupported(language) ==> entries == old(entries)
    {
      if language in SupportedLanguages {
        entries := entries[LanguageKey := language];
      }
    }

    /**
     * `getSavedLanguage()`: a stored supported code is returned as is;
     * otherwise the device language is stored and returned. Either way the
     * store afterwards holds the returned code.
     */
    method GetSavedLanguage(bestMatch: Option<string>) returns (language: string)
      modifies this
      ensures LanguageKey in old(entries) && old(entries)[LanguageKey] != "" && IsSupported(old(entries)[LanguageKey]) ==>
                language == old(entries)[LanguageKey] && entries == old(entries)
      ensures !(LanguageKey in old(entries) && old(entries)[LanguageKey] != "" && IsSupported(old(entries)[LanguageKey])) ==>
                language == DeviceLanguage(bestMatch) && entries == old(entries)[LanguageKey := language]
      ensures LanguageKey in entries && entries[LanguageKey] == language
    {
      if LanguageKey in entries && entries[LanguageKey] != "" && entries[LanguageKey] in SupportedLanguages {
        language := entries[LanguageKey];
        return;
      }
      language := DeviceLanguage(bestMatch);
      entries := entries[LanguageKey := language];
    }
  }
}
