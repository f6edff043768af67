/** The start-up locale of the front end (frontend/src/i18n/index.js, `getDefaultLocale`): a
    saved choice wins; otherwise the browser's language picks one of the three bundled
    translations. */
module Locale {
  import opened Wrappers
  import opened Text

  const SimplifiedChinese := "zh-CN"
  const TraditionalChinese := "zh-TW"
  const English := "en-US"

  /** JavaScript truthiness of an optional string: present and not empty. */
  predicate Truthy(s: Option<string>)
  {
    s.Some? && s.value != ""
  }

  /** `getDefaultLocale` given the saved `locale` entry, `navigator.language` and
      `navigator.userLanguage`. When neither language property is truthy and the fallback is
      missing, `startsWith` is called on `undefined` and throws a TypeError. */
  function GetDefaultLocale(saved: Option<string>, language: Option<string>, userLanguage: Option<string>)
    : (r: Result<string>)
    ensures Truthy(saved) ==> r == Ok(saved.value)
    ensures !Truthy(saved) ==> (r.Err? <==> !Truthy(language) && userLanguage.None?)
    ensures r.Err? ==> r.error == TypeError
    ensures !Truthy(saved) && r.Ok? ==>
      r.value == FromLanguage(if Truthy(language) then language.value else userLanguage.value)
  {
    if Truthy(saved) then Ok(saved.value)
    else
      var browserLang := if Truthy(language) then language else userLanguage;
      match browserLang
      case None => Err(TypeError)
      case Some(lang) => Ok(FromLanguage(lang))
  }

  /** The translation chosen for a browser language. */
  function FromLanguage(lang: string): (locale: string)
    ensures locale in {SimplifiedChinese, TraditionalChinese, English}
    ensures locale == TraditionalChinese <==> lang == "zh-TW" || lang == "zh-HK"
    ensures locale == English <==> StartsWith(lang, "en")
    ensures locale == SimplifiedChinese <==>
      lang != "zh-TW" && lang != "zh-HK" && !StartsWith(lang, "en")
  {
    if StartsWith(lang, "zh") then
      if lang == "zh-TW" || lang == "zh-HK" then TraditionalChinese else SimplifiedChinese
    else if StartsWith(lang, "en") then English
    else SimplifiedChinese
  }

  /** Without a saved choice the locale is always one of the bundled translations, and the
      browser's language decides it exactly as `FromLanguage` says; a saved empty string counts
      as no choice. */
  lemma BrowserDecides(language: Option<string>, userLanguage: Option<string>)
    ensures GetDefaultLocale(None, language, userLanguage) ==
      if Truthy(language) then Ok(FromLanguage(language.value))
      else if userLanguage.Some? then Ok(FromLanguage(userLanguage.value)) else Err(TypeError)
    ensures GetDefaultLocale(Some(""), language, userLanguage) == GetDefaultLocale(None, language, userLanguage)
    ensures Truthy(language) || userLanguage.Some? ==>
      && GetDefaultLocale(None, language, userLanguage).Ok?
      && GetDefaultLocale(None, language, userLanguage).value in {SimplifiedChinese, TraditionalChinese, English}
  {
  }

  /** A saved locale is kept, even one that has no translation. */
  lemma SavedWins(saved: string, language: Option<string>, userLanguage: Option<string>)
    requires saved != ""
    ensures GetDefaultLocale(Some(saved), language, userLanguage) == Ok(saved)
  {
  }
}
