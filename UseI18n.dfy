/**
 * The `useI18n` hook of src/i18n/useI18n.ts: the two languages offered in the
 * picker, the lookup of the current one, and `changeLanguage`, which switches
 * the translation library and then persists the choice.
 *
 * Whether the library's `changeLanguage` succeeds is an input; logging of the
 * swallowed failure is left out.
 */
module UseI18n {
  import opened Common
  import I18n

  datatype LanguageInfo = LanguageInfo(code: string, name: string, nativeName: string, flag: Option<string>)

  const AvailableLanguages: seq<LanguageInfo> := [
    LanguageInfo("en", "English", "English", None),
    LanguageInfo("hi", "Hindi", "\U{939}\U{93F}\U{928}\U{94D}\U{926}\U{940}", None)
  ]

  /** `availableLanguages.find(lang => lang.code === code)`. */
  function FindLanguage(languages: seq<LanguageInfo>, code: string): (r: Option<LanguageInfo>)
    ensures r.Some? ==> r.value in languages && r.value.code == code
    ensures r.None? <==> forall i :: 0 <= i < |languages| ==> languages[i].code != code
  {
    if languages == [] then None
    else if languages[0].code == code then Some(languages[0])
    else FindLanguage(languages[1..], code)
  }

  /** `getCurrentLanguageInfo`: the entry for the current code, English when there is none. */
  function CurrentLanguageInfo(currentCode: string): (info: LanguageInfo)
    ensures info in AvailableLanguages
    ensures currentCode == "en" || currentCode == "hi" ==> info.code == currentCode
    ensures currentCode != "en" && currentCode != "hi" ==> info == AvailableLanguages[0]
  {
    FindLanguage(AvailableLanguages, currentCode).GetOr(AvailableLanguages[0])
  }

  /** A supported code without a picker entry, such as `fr`, shows as English. */
  lemma UnlistedLanguageShowsEnglish(code: string)
    requires I18n.IsSupported(code) && code !in I18n.Resources
    ensures CurrentLanguageInfo(code).code == "en"
  {
  }

  /** The translation library's current language. */
  class Translator {
    var language: string
    const store: I18n.LanguageStore

    constructor (initialLanguage: string, s: I18n.LanguageStore)
      ensures language == initialLanguage && store == s
    {
      language := initialLanguage;
      store := s;
    }

    /**
     * `changeLanguage(code)`: on success the library switches and the code is
     * saved (when supported); on failure nothing changes and no error reaches
     * the caller.
     */
    method ChangeLanguage(code: string, librarySucceeds: bool)
      modifies this, store
      ensures librarySucceeds ==> language == code
      ensures librarySucceeds && I18n.IsSupported(code) ==> store.entries == old(store.entries)[I18n.LanguageKey := code]
      ensures librarySucceeds && !I18n.IsSupported(code) ==> store.entries == old(store.entries)
      ensures !librarySucceeds ==> language == old(language) && store.entries == old(store.entries)
    {
      if librarySucceeds {
        language := code;
        store.SaveLanguage(code);
      }
    }
  }
}
