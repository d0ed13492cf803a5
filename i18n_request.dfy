/** The request locale fallback (i18n/request.ts). */
module I18nRequest {
  import opened Wrappers

  /** The supported locales. */
  const Locales: seq<string> := ["en", "de"]

  /** `locale && locales.includes(locale) ? locale : 'en'`. */
  function ResolveLocale(locale: Option<string>): (resolved: string)
    ensures resolved in Locales
    ensures locale.Some? && locale.value in Locales ==> resolved == locale.value
    ensures locale.None? || locale.value !in Locales ==> resolved == "en"
  {
    if locale.Some? && locale.value != "" && locale.value in Locales then locale.value else "en"
  }

  /** Resolving a resolved locale again changes nothing. */
  lemma ResolveIdempotent(locale: Option<string>)
    ensures ResolveLocale(Some(ResolveLocale(locale))) == ResolveLocale(locale)
  {
  }

  /** The empty string, a falsy locale, falls back to English like a missing one. */
  lemma EmptyLocaleFallsBack()
    ensures ResolveLocale(Some("")) == "en" == ResolveLocale(None)
  {
  }
}
