# Consent-gated analytics of the Plusplus website, in Dafny

This project models the behavioural core of a Next.js marketing website: the
consent-gated Google Analytics layer (`lib/gtag.ts`) and the small pieces built
around it — the analytics hook, the privacy-settings card, the cookie banner,
the language switcher, the request-locale fallback and the contact-form API
route — and proves properties of that model.

The analytics layer is one browser state (`Gtag.BrowserState`): the
string-keyed `localStorage` (only `'cookie-consent'` and `'ga-opt-out'` are
used), the `window['ga-disable-<id>']` flags, the set of cookies the layer has
expired, and the append-only log of calls to the vendor function `gtag`.
Configuration (`Gtag.Config`) holds the tracking id (absent, empty or set),
the raw `NEXT_PUBLIC_ANALYTICS_ENABLED` value and whether the code runs in a
browser. Each state-changing operation exists twice: as a function `After…`
giving the state after the call, on which the lemmas are stated, and as a
method of the class `Gtag.Analytics`, which performs the source's writes one at
a time (`setItem`, `removeItem`, the window flag, each cookie, each `gtag` call)
and is proved to reach exactly that state. The privacy card and the cookie
banner are classes whose fields are the React state they keep.

What is proved, in short:

- the gate `isAnalyticsActive` is exactly "browser, non-empty tracking id,
  enabled flag `'true'`, consent `'accepted'`, opt-out not `'true'`";
- tracking calls (`config` page views and `event`s) are appended only through
  an open gate; consent updates always deny the three ad signals;
- opt-out closes the gate at once and keeps it closed over any sequence of
  operations without an opt-in; deletion removes the consent value, forces the
  opt-out, is idempotent, and keeps the gate closed over every later sequence
  of operations, opt-in included;
- no operation ever sets `'cookie-consent'`, and no sequence of operations
  touches a store key other than the two analytics keys;
- the banner's `split("; ").find(startsWith)` lookup equals "the cookie string
  starts with `cookieConsent=` or contains `; cookieConsent=`", and the split
  loses nothing (joining gives back the string);
- the contact route's check equals the regular expression
  `/^[^\s@]+@[^\s@]+\.[^\s@]+$/` read as a language, and a mail is attempted
  exactly when configuration, body, fields and address all pass.

## Notes on the code

- Nothing in this code writes `'cookie-consent'`: the banner stores its choice
  in a cookie named `cookieConsent`, which the analytics layer never reads. The
  model therefore treats the stored consent value as input, and
  `GtagProperties.NoConsentNoTracking` shows the consequence: without an
  externally stored `'accepted'`, no sequence of operations sends a tracking
  call.
- `updateConsent` checks the enabled flag as well as the tracking id, so
  opt-out and opt-in send a consent update only when both are set (and a
  window exists).
- `getOptOutStatus` returns `false` outside a browser, so the status reads
  opted-out after `optOutAnalytics` only when a window exists.

## Model

| member | source | states |
|---|---|---|
| `Gtag.IsAnalyticsEnabled` | lib/gtag.ts:17-19 | Analytics counts as configured exactly when the tracking id is present and non-empty and the enabled setting is the string `'true'`. |
| `Gtag.IsAnalyticsActive` | lib/gtag.ts:17-29 | The gate is open exactly when there is a window, the tracking id is present and non-empty, the enabled setting is `'true'`, `'cookie-consent'` is `'accepted'` and `'ga-opt-out'` is not `'true'`. |
| `Gtag.GetOptOutStatus` | lib/gtag.ts:111-114 | True exactly when there is a window and `'ga-opt-out'` is `'true'`; a true status implies the gate is closed. |
| `Gtag.DropTwo` | lib/gtag.ts:125 | JavaScript `slice(2)`: the string minus its first two characters, or empty when it is shorter. |
| `Gtag.VendorCookieNames` | lib/gtag.ts:122-127 | The expired cookies are exactly three distinct names: `_ga`, `_ga_` plus the id without its first two characters, and `_gid`. |
| `Gtag.ConsentUpdateFor` | lib/gtag.ts:35-40 | Analytics storage is granted iff `granted`; ad storage, ad user data and ad personalisation are always denied. |
| `Gtag.AfterUpdateConsent` | lib/gtag.ts:32-45 | Without configuration or window nothing changes; otherwise exactly one consent update for `granted` is appended; store, flags and cookies never change and no tracking call is sent. |
| `Gtag.PageTitle` | lib/gtag.ts:53 | The reported title is the given title when non-empty, otherwise the document title. |
| `Gtag.AfterTrackPageView` | lib/gtag.ts:48-60 | Appends one call iff the gate is open, a `config` with the tracking id, the url as path, the chosen title and the location; nothing else changes. |
| `Gtag.AfterTrackEvent` | lib/gtag.ts:63-76 | Appends one call iff the gate is open, an `event` with action, category, label and value passed through unchanged (absent included) and `non_interaction` true; nothing else changes. |
| `Gtag.AfterOptOut` | lib/gtag.ts:79-90 | `'ga-opt-out'` becomes `'true'`, no other key changes, the status reads opted-out (with a window), the gate is closed; with window and id the disable flag is set; exactly one denied consent update is appended when there is a window and analytics is configured (id and enabled flag), otherwise the log is unchanged. |
| `Gtag.AfterOptIn` | lib/gtag.ts:93-108 | Removes `'ga-opt-out'` and nothing else from the store, leaves `'cookie-consent'` as it was, clears the disable flag with window and id, and sends one granted update iff window, configuration and stored `'accepted'` all hold. |
| `Gtag.AfterRequestDataDeletion` | lib/gtag.ts:117-132 | `'cookie-consent'` is absent, `'ga-opt-out'` is `'true'`, no other key changes, the gate is closed, flags and log are unchanged; with window and id exactly the three vendor cookies are added to the expired set. |
| `Gtag.Analytics.constructor` | lib/gtag.ts:2-6 | A fresh browser: the given configuration and store, no flags, no expired cookies, an empty vendor log. |
| `Gtag.Analytics.GetItem` | lib/gtag.ts:25-26 | `localStorage.getItem`: the stored value, or null when the key is absent. |
| `Gtag.Analytics.SetItem` | lib/gtag.ts:80 | `localStorage.setItem`: only that key changes, to the value. |
| `Gtag.Analytics.RemoveItem` | lib/gtag.ts:94 | `localStorage.removeItem`: only that key is removed. |
| `Gtag.Analytics.SetWindowFlag` | lib/gtag.ts:83 | Assigning a window flag changes only that flag. |
| `Gtag.Analytics.ExpireCookie` | lib/gtag.ts:124-126 | Writing an expired cookie adds its name to the expired set and changes nothing else. |
| `Gtag.Analytics.Send` | lib/gtag.ts:35 | A `gtag` call appends exactly that call to the log. |
| `Gtag.Analytics.UpdateConsent` | lib/gtag.ts:32-45 | The object's state afterwards is `AfterUpdateConsent` of its state before. |
| `Gtag.Analytics.TrackPageView` | lib/gtag.ts:48-60 | The object's state afterwards is `AfterTrackPageView` of its state before. |
| `Gtag.Analytics.TrackEvent` | lib/gtag.ts:63-76 | The object's state afterwards is `AfterTrackEvent` of its state before. |
| `Gtag.Analytics.OptOut` | lib/gtag.ts:79-90 | Store write, flag write and the nested `updateConsent(false)` together reach `AfterOptOut`. |
| `Gtag.Analytics.OptIn` | lib/gtag.ts:93-108 | Store removal, flag write, the consent read and the conditional `updateConsent(true)` together reach `AfterOptIn`. |
| `Gtag.Analytics.RequestDataDeletion` | lib/gtag.ts:117-132 | The two store writes and three cookie writes together reach `AfterRequestDataDeletion`. |
| `GtagProperties.StepTouchesOnlyGateKeys` | lib/gtag.ts:79-132 | No single operation changes a store key other than `'cookie-consent'` and `'ga-opt-out'`. |
| `GtagProperties.StepGated` | lib/gtag.ts:48-76 | Every operation only appends to the log, sends no tracking call through a closed gate, and either keeps or removes the consent value. |
| `GtagProperties.StepKeepsOptOut` | lib/gtag.ts:79-132 | Every operation except opt-in leaves a stored opt-out in place. |
| `GtagProperties.RunFrame` | lib/gtag.ts:79-132 | Over any sequence of operations the log is append-only and no store key outside the two analytics keys changes. |
| `GtagProperties.RunNeverGrantsConsent` | lib/gtag.ts:79-132 | No sequence of operations produces a stored `'accepted'` that was not there at the start. |
| `GtagProperties.NoConsentNoTracking` | lib/gtag.ts:22-29 | Without a stored `'accepted'`, no sequence of operations sends a tracking call, and the gate is closed at the end. |
| `GtagProperties.OptOutHoldsUntilOptIn` | lib/gtag.ts:79-90 | From an opted-out state, any sequence of operations without an opt-in sends no tracking call and keeps the opt-out. |
| `GtagProperties.OptOutStopsTracking` | lib/gtag.ts:48-90 | Right after opt-out, an event or page view changes nothing. |
| `GtagProperties.DeletionIsTerminal` | lib/gtag.ts:117-120 | After deletion no sequence of operations, opt-in included, opens the gate or sends a tracking call. |
| `GtagProperties.DeletionIdempotent` | lib/gtag.ts:117-127 | Deleting twice gives the same browser state as deleting once. |
| `GtagProperties.OptInAfterDeletionStaysInactive` | lib/gtag.ts:93-120 | Opt-in after deletion leaves the gate closed and sends nothing. |
| `GtagProperties.OptInUndoesOptOut` | lib/gtag.ts:79-108 | Opt-out then opt-in leaves the original store minus the opt-out key; the gate is then open iff window, configuration and stored `'accepted'`. |
| `UseAnalytics.HelperEvent` | hooks/use-analytics.ts:31-53 | Each helper's tuple: contact form (`submit`, `contact_form`, `header`) whatever the form held; language switch, file download with their argument as label; external link labelled by the non-empty link text else the url; cookie-consent and privacy actions with fixed categories and no label; never a value. |
| `UseAnalytics.OnAnalyticsEvent` | hooks/use-analytics.ts:77-79 | Always the wrapper's category; action, label and value passed through. |
| `UseAnalytics.AfterTrackCustomEvent` | hooks/use-analytics.ts:19-28 | The extra gate check makes no difference: the result equals a direct `trackEvent`, and a closed gate changes nothing. |
| `UseAnalytics.TrackCustomEvent` | hooks/use-analytics.ts:19-28 | The object's state afterwards is `AfterTrackCustomEvent` of its state before. |
| `UseAnalytics.TrackHelper` | hooks/use-analytics.ts:30-53 | A helper forwards its fixed tuple through `trackCustomEvent`. |
| `UseAnalytics.HelperSendsOnlyThroughGate` | hooks/use-analytics.ts:19-53 | A helper sends nothing through a closed gate, exactly its non-interaction event through an open one, and never touches the store. |
| `UseAnalytics.ContactFormCarriesNoFormContent` | hooks/use-analytics.ts:31-33 | The contact-form helper sends nothing or the fixed (`submit`, `contact_form`, `header`) event, so no form content can reach the vendor. |
| `PrivacyControls.EssentialCookiesSwitch` | app/components/PrivacyControls.tsx:63 | The essential-cookies switch is always checked and disabled. |
| `PrivacyControls.PrivacyControls.constructor` | app/components/PrivacyControls.tsx:21 | `analyticsEnabled` starts false. |
| `PrivacyControls.PrivacyControls.AnalyticsSwitch` | app/components/PrivacyControls.tsx:75-78 | The analytics switch shows `analyticsEnabled` and can be changed. |
| `PrivacyControls.PrivacyControls.Mount` | app/components/PrivacyControls.tsx:23-25 | After mount `analyticsEnabled` is the negation of the opt-out status. |
| `PrivacyControls.PrivacyControls.HandleAnalyticsToggle` | app/components/PrivacyControls.tsx:27-34 | `analyticsEnabled` becomes the switch value, the analytics state is opt-in or opt-out of the old state, the opt-out status is its negation (with a window), switching off closes the gate, and switching on never opens it without stored consent. |
| `PrivacyControls.PrivacyControls.HandleDataDeletion` | app/components/PrivacyControls.tsx:36-40 | `analyticsEnabled` is false, the analytics state is the deletion of the old one: opt-out `'true'`, consent absent, gate closed. |
| `PrivacyControls.DeleteThenToggleOn` | app/components/PrivacyControls.tsx:27-39 | Deleting then switching on shows the switch on, yet the gate stays closed and no vendor call is made. |
| `CookieConsent.SplitFrom` | app/components/CookieConsent.tsx:15-16 | `split("; ")` always yields at least one entry. |
| `CookieConsent.JoinSplitFrom` | app/components/CookieConsent.tsx:15-16 | Joining the entries read from a position with `"; "` gives back the text read so far plus the rest. |
| `CookieConsent.JoinSplitEntries` | app/components/CookieConsent.tsx:15-16 | Joining the split entries with `"; "` gives back the cookie string. |
| `CookieConsent.FindConsentEntry` | app/components/CookieConsent.tsx:17 | `find` returns an entry of the list starting with `cookieConsent=`, or nothing when no entry does. |
| `CookieConsent.FindConsentEntryFirst` | app/components/CookieConsent.tsx:17 | `find` returns the first entry starting with `cookieConsent=`: when entry `k` matches and none before it does, the result is entry `k`. |
| `CookieConsent.SplitFromHasNoSeparator` | app/components/CookieConsent.tsx:15-16 | Every entry read from a scan position is free of `"; "`, given that the entry read so far is and does not end in `;` before a space. |
| `CookieConsent.SplitEntriesHaveNoSeparator` | app/components/CookieConsent.tsx:15-16 | No entry of `split("; ")` contains `"; "`; with `JoinSplitEntries` this pins the split. |
| `CookieConsent.HasConsentEntry` | app/components/CookieConsent.tsx:15-17 | The lookup is truthy exactly when some entry of the split cookie string starts with `cookieConsent=`. |
| `CookieConsent.FindInSplitFrom` | app/components/CookieConsent.tsx:15-17 | The lookup over the entries from a scan position equals a prefix match at the entry start or an occurrence of `; cookieConsent=` in the rest. |
| `CookieConsent.HasConsentEntryIff` | app/components/CookieConsent.tsx:15-17 | The lookup succeeds iff the cookie string starts with `cookieConsent=` or contains `; cookieConsent=`. |
| `CookieConsent.ShouldShowBanner` | app/components/CookieConsent.tsx:11-21 | The mount decision: show exactly when the setting is not `"false"`, the cookie string does not start with `cookieConsent=` and does not contain `; cookieConsent=`. |
| `CookieConsent.AnyConsentEntrySuppressesBanner` | app/components/CookieConsent.tsx:15-21 | Any `cookieConsent=` entry, whatever its value (`declined` included) and wherever it stands, keeps the banner hidden. |
| `CookieConsent.FreshVisitorSeesBanner` | app/components/CookieConsent.tsx:9-23 | With no cookies the banner shows iff the setting is not `"false"`. |
| `CookieConsent.LookalikeNameDoesNotSuppress` | app/components/CookieConsent.tsx:15-17 | A single entry not starting with `cookieConsent=` does not hide the banner. |
| `CookieConsent.CookieConsentBanner.constructor` | app/components/CookieConsent.tsx:7 | `showBanner` starts false. |
| `CookieConsent.CookieConsentBanner.Mount` | app/components/CookieConsent.tsx:9-23 | `showBanner` becomes true exactly when the setting is not `"false"` and no entry is the consent cookie; with the setting `"false"` it is left as it was. |
| `CookieConsent.CookieConsentBanner.HandleAccept` | app/components/CookieConsent.tsx:25-28 | Hides the banner; it modifies only the banner, so the analytics store and gate are untouched. |
| `CookieConsent.CookieConsentBanner.HandleDecline` | app/components/CookieConsent.tsx:30-33 | Hides the banner; it modifies only the banner, so the analytics store and gate are untouched. |
| `CookieConsent.MountDisabled` | app/components/CookieConsent.tsx:11-13 | With the setting `"false"` a freshly mounted banner is not shown, whatever the cookies. |
| `LanguageSwitcher.PathWithoutLocale` | app/components/LanguageSwitcher.tsx:19 | A leading slash and two lower-case letters are removed once; an empty remainder becomes `/`; other paths are kept. |
| `LanguageSwitcher.SwitchToLocale` | app/components/LanguageSwitcher.tsx:17-25 | The new path begins with `/` and the new locale and has something after it. |
| `LanguageSwitcher.TargetLocale` | app/components/LanguageSwitcher.tsx:28 | The offered locale is `de` iff the current one is `en`, and is always `en` or `de`. |
| `LanguageSwitcher.TargetLabel` | app/components/LanguageSwitcher.tsx:29 | The label is `Deutsch` iff the offered locale is `de`, `English` iff it is `en`. |
| `LanguageSwitcher.TargetLocaleInvolution` | app/components/LanguageSwitcher.tsx:28 | On `en` and `de`, offering twice returns the original locale. |
| `LanguageSwitcher.SwitchExamples` | app/components/LanguageSwitcher.tsx:19-22 | `/en` → `/de/`, `/en/help` → `/de/help`, `/help` → `/delp`, `/` → `/de/`. |
| `LanguageSwitcher.StripIsNotSegmentAware` | app/components/LanguageSwitcher.tsx:19 | Any path of a slash, two lower-case letters and more loses those letters, locale or not. |
| `LanguageSwitcher.SwitchRoundTrip` | app/components/LanguageSwitcher.tsx:19-22 | `/xx` + a non-empty rest starting with `/` switched to any locale code and back gives the original path. |
| `LanguageSwitcher.BareLocalePathGainsSlash` | app/components/LanguageSwitcher.tsx:19-22 | A bare `/xx` switched away and back comes back as `/xx/`. |
| `LanguageSwitcher.SwitchIdempotent` | app/components/LanguageSwitcher.tsx:19-22 | Switching twice to the same locale code gives what switching once gave. |
| `I18nRequest.ResolveLocale` | i18n/request.ts:3-7 | The resolved locale is `en` or `de`; a supported locale resolves to itself; a missing, empty or unsupported one to `en`. |
| `I18nRequest.ResolveIdempotent` | i18n/request.ts:7 | Resolving the result again gives the same locale. |
| `I18nRequest.EmptyLocaleFallsBack` | i18n/request.ts:7 | The empty locale and a missing one both resolve to `en`. |
| `ContactRoute.FirstIndexOf` | app/api/contact/route.ts:44-45 | The index found holds the character and none comes before it; no index means the character is absent. |
| `ContactRoute.IsValidEmail` | app/api/contact/route.ts:44-45 | `emailRegex.test(email)`: an accepted address has at least five characters and begins and ends with an address character (neither white space nor `@`). |
| `ContactRoute.IsValidEmailMatchesPattern` | app/api/contact/route.ts:44-45 | The check accepts exactly the strings `local@domain.tld` with all three parts non-empty and free of white space and `@`. |
| `ContactRoute.ValidEmailShape` | app/api/contact/route.ts:44-45 | An accepted address has exactly one `@`, not first or last, and no white space. |
| `ContactRoute.AcceptedEmailExamples` | app/api/contact/route.ts:44-50 | `a@b.c` and `a@b.c.d` pass the check. |
| `ContactRoute.RejectedEmailExamples` | app/api/contact/route.ts:44-50 | `a@b.`, `@b.c`, `a@@b.c` and `a b@c.d` fail the check. |
| `ContactRoute.NewlinesToBr` | app/api/contact/route.ts:72 | The result has no line break, and a message without one is unchanged. |
| `ContactRoute.NewlinesToBrLength` | app/api/contact/route.ts:72 | The result is three characters longer per line break. |
| `ContactRoute.NewlinesToBrAppend` | app/api/contact/route.ts:72 | The replacement works character by character: converting a concatenation converts each part. |
| `ContactRoute.NewlinesToBrChar` | app/api/contact/route.ts:72 | A line break becomes exactly `<br>`; any other character is kept. With `NewlinesToBrAppend` this pins the whole result. |
| `ContactRoute.Subject` | app/api/contact/route.ts:63 | The subject is the lead `New Contact Form: ` followed by the sender's name. |
| `ContactRoute.TextPart` | app/api/contact/route.ts:64-68 | The plain-text body starts with `Hello,` and ends with the message verbatim. |
| `ContactRoute.HtmlHead` | app/api/contact/route.ts:69-72 | The HTML head opens with `<h3>` and ends with the `<p>` that the message section fills. |
| `ContactRoute.HtmlPart` | app/api/contact/route.ts:69-72 | The HTML body is the fixed head, the converted message and `</p>`, and its message section holds no line break. |
| `ContactRoute.BuildMessage` | app/api/contact/route.ts:53-76 | From and To are the configured addresses, the subject is `New Contact Form: ` plus the name, Reply-To is the e-mail, and the text and HTML parts are built from the form. |
| `ContactRoute.IsConfigured` | app/api/contact/route.ts:15-29 | The POST configuration check passes exactly when the GET health report shows all four settings as `Set`. |
| `ContactRoute.Post` | app/api/contact/route.ts:13-108 | Missing configuration gives 500 `Server configuration error`; an unreadable body 500 `Failed to send email`; a missing field 400 `Missing required fields`, before the format check; a bad address 400 `Invalid email address`; a payload is attempted iff all checks pass; 200 `{submitted: true}` iff it was delivered, 500 `Failed to send email` if the send threw. |
| `ContactRoute.ConfigCheckPrecedesBody` | app/api/contact/route.ts:15-29 | Without full configuration the response does not depend on the body or the mail service. |
| `ContactRoute.RequiredFieldsCheckedBeforeFormat` | app/api/contact/route.ts:36-50 | A missing or empty name gives `Missing required fields` whatever the e-mail. |
| `ContactRoute.SetOrNot` | app/api/contact/route.ts:116-119 | `Set` iff the setting is present and non-empty, `Not set` otherwise. |
| `ContactRoute.Get` | app/api/contact/route.ts:111-121 | Reports `online`, and each of the four settings as `Set` iff present and non-empty; no value is revealed. |

## Left out

- Console logging and the debug flag (`NEXT_PUBLIC_GA_DEBUG_MODE`): they have no effect on state.
- The cookie strings' expiry date, path and `domain=` part: an expired cookie is modelled by its name only; `window.location.hostname` is not modelled.
- `typeof window` / `typeof document` checks are one boolean capability; `optOutAnalytics`, `optInAnalytics` and `requestDataDeletion` write the store before that check (lib/gtag.ts:80, 94, 118-119), and the model lets them do so in every configuration (outside a browser the real code would throw on `localStorage`).
- `window.gtag` is assumed defined: every vendor call succeeds. In the source it is defined only by the inline script in app/components/GoogleAnalytics.tsx, and neither layout renders that component. Without it, each `gtag` call throws a `TypeError`. With window, id and the enabled flag set, `optOutAnalytics` would then throw after its store and flag writes, and `handleAnalyticsToggle(false)` would stop before `setAnalyticsEnabled`. The model captures neither the exception nor the partly applied state.
- The vendor's own behaviour (script loading, queueing, the `ga-disable-<id>` flag's effect inside the vendor): the log records calls only. The script injection and consent-default payload live in app/components/GoogleAnalytics.tsx, which is not part of this model.
- Event values are integers; JavaScript numbers may be fractional.
- Cross-tab `storage` events and the page-view effect of `useAnalytics` (a React effect that calls `trackPageView`, already modelled).
- `PrivacyControls.PrivacyControls.HandleDataDeletion`: the confirmation `alert` is not modelled.
- The banner's cookie write itself is done by the `react-cookie-consent` library, which is not part of this model; the handlers only hide the banner.
- The Mailjet client and the awaited send are replaced by the `SendOutcome` input; `request.json()` failing is a `None` body. Body fields of non-string JSON types are not modelled.
- The messages JSON import in i18n/request.ts, the Next.js configuration, the locale middleware, the static pages and the other UI components are not part of this model.
