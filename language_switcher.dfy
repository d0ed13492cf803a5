/**
 * The language switcher (app/components/LanguageSwitcher.tsx): which locale
 * the button offers, and the path it navigates to.
 */
module LanguageSwitcher {
  import opened Strings

  /** The regex class `[a-z]`. */
  predicate IsLowerLetter(c: char) {
    'a' <= c <= 'z'
  }

  /** A two-letter lower-case locale code such as `en` or `de`. */
  predicate IsLocaleCode(l: string) {
    |l| == 2 && IsLowerLetter(l[0]) && IsLowerLetter(l[1])
  }

  /** The path starts with a match of `/^\/[a-z]{2}/`. */
  predicate HasLocalePrefix(path: string) {
    |path| >= 3 && path[0] == '/' && IsLocaleCode(path[1..3])
  }

  /** `pathname.replace(/^\/[a-z]{2}/, '') || '/'`. */
  function PathWithoutLocale(pathname: string): (rest: string)
    ensures rest != ""
    ensures HasLocalePrefix(pathname) && |pathname| > 3 ==> rest == pathname[3..]
    ensures HasLocalePrefix(pathname) && |pathname| == 3 ==> rest == "/"
    ensures !HasLocalePrefix(pathname) && pathname != "" ==> rest == pathname
    ensures pathname == "" ==> rest == "/"
  {
    var replaced := if HasLocalePrefix(pathname) then pathname[3..] else pathname;
    if replaced == "" then "/" else replaced
  }

  /** `switchToLocale(newLocale)`'s target: `/${newLocale}${pathWithoutLocale}`. */
  function SwitchToLocale(pathname: string, newLocale: string): (newPath: string)
    ensures StartsWith(newPath, "/" + newLocale)
    ensures |newPath| > |newLocale| + 1
  {
    "/" + newLocale + PathWithoutLocale(pathname)
  }

  /** The locale the button offers: the other one of `en` and `de`. */
  function TargetLocale(locale: string): (target: string)
    ensures target == "de" <==> locale == "en"
    ensures target == "en" || target == "de"
  {
    if locale == "en" then "de" else "en"
  }

  /** The button's label names the offered locale. */
  function TargetLabel(locale: string): (buttonText: string)
    ensures buttonText == "Deutsch" <==> TargetLocale(locale) == "de"
    ensures buttonText == "English" <==> TargetLocale(locale) == "en"
  {
    if locale == "en" then "Deutsch" else "English"
  }

  /** Offering twice returns to the starting locale, for the two supported locales. */
  lemma TargetLocaleInvolution(locale: string)
    requires locale == "en" || locale == "de"
    ensures TargetLocale(TargetLocale(locale)) == locale
  {
  }

  /** The strip removes a leading slash and two letters once, whether or not they are a locale segment. */
  lemma SwitchExamples()
    ensures SwitchToLocale("/en", "de") == "/de/"
    ensures SwitchToLocale("/en/help", "de") == "/de/help"
    ensures SwitchToLocale("/help", "de") == "/delp"
    ensures SwitchToLocale("/", "de") == "/de/"
  {
    assert HasLocalePrefix("/en") && HasLocalePrefix("/en/help") && HasLocalePrefix("/help");
    assert "/en/help"[3..] == "/help";
    assert "/help"[3..] == "lp";
  }

  /** Any path beginning with a slash and two lower-case letters loses them. */
  lemma StripIsNotSegmentAware(a: char, b: char, rest: string)
    requires IsLowerLetter(a) && IsLowerLetter(b) && rest != ""
    ensures SwitchToLocale(['/', a, b] + rest, "de") == "/de" + rest
  {
    var p := ['/', a, b] + rest;
    assert p[1..3] == [a, b];
    assert p[3..] == rest;
  }

  /**
   * Switching away and back restores a path `/xx/…` whose locale segment is
   * followed by more path.
   */
  lemma {:induction false} SwitchRoundTrip(xx: string, target: string, rest: string)
    requires IsLocaleCode(xx) && IsLocaleCode(target)
    requires rest != "" && rest[0] == '/'
    ensures SwitchToLocale(SwitchToLocale("/" + xx + rest, target), xx) == "/" + xx + rest
  {
    var p := "/" + xx + rest;
    assert p[1..3] == xx && p[3..] == rest;
    var q := SwitchToLocale(p, target);
    assert q == "/" + target + rest;
    assert q[1..3] == target && q[3..] == rest;
  }

  /** A bare locale path does not round-trip: it comes back with a trailing slash. */
  lemma BareLocalePathGainsSlash(xx: string, target: string)
    requires IsLocaleCode(xx) && IsLocaleCode(target)
    ensures SwitchToLocale(SwitchToLocale("/" + xx, target), xx) == "/" + xx + "/"
  {
    var p := "/" + xx;
    assert p[1..3] == xx;
    var q := SwitchToLocale(p, target);
    assert q == "/" + target + "/";
    assert q[1..3] == target && q[3..] == "/";
  }

  /** Switching twice to the same locale code lands where switching once did. */
  lemma SwitchIdempotent(pathname: string, newLocale: string)
    requires IsLocaleCode(newLocale)
    ensures SwitchToLocale(SwitchToLocale(pathname, newLocale), newLocale) == SwitchToLocale(pathname, newLocale)
  {
    var q := SwitchToLocale(pathname, newLocale);
    var rest := PathWithoutLocale(pathname);
    assert q == "/" + newLocale + rest;
    assert q[1..3] == newLocale && q[3..] == rest;
  }
}
