/**
 * The analytics hook (hooks/use-analytics.ts): each helper callback maps its
 * arguments to a fixed `(action, category, label, value)` tuple and forwards
 * it through one gate check to `trackEvent`.
 */
module UseAnalytics {
  import opened Wrappers
  import opened Gtag

  /** The arguments of `trackCustomEvent(action, category, label, value)`. */
  datatype EventArgs = EventArgs(action: string, category: string,
                                 eventLabel: Option<string>, value: Option<int>)

  /** The argument of `trackCookieConsent`. */
  datatype ConsentAction = Accept | Decline | Customize

  /** The argument of `trackPrivacyAction`. */
  datatype PrivacyAction = OptOutAction | OptInAction | DeleteDataAction

  function ConsentActionName(a: ConsentAction): string {
    match a
    case Accept => "accept"
    case Decline => "decline"
    case Customize => "customize"
  }

  function PrivacyActionName(a: PrivacyAction): string {
    match a
    case OptOutAction => "opt_out"
    case OptInAction => "opt_in"
    case DeleteDataAction => "delete_data"
  }

  /** The helper callbacks the hook returns, with their arguments. */
  datatype Helper =
    | ContactFormSubmit
    | LanguageSwitch(newLanguage: string)
    | ExternalLink(url: string, linkText: Option<string>)
    | FileDownload(fileName: string)
    | CookieConsent(consentAction: ConsentAction)
    | Privacy(privacyAction: PrivacyAction)

  /** The event a helper callback forwards. */
  function HelperEvent(h: Helper): (e: EventArgs)
    // no helper ever reports a value
    ensures e.value == None
    // the contact-form event is the same whatever was typed into the form
    ensures h.ContactFormSubmit? ==>
      e.action == "submit" && e.category == "contact_form" && e.eventLabel == Some("header")
    ensures h.LanguageSwitch? ==>
      e.action == "language_switch" && e.category == "navigation" && e.eventLabel == Some(h.newLanguage)
    // the link text labels the event when it is non-empty, the url otherwise
    ensures h.ExternalLink? ==>
      e.action == "click" && e.category == "external_link"
      && (h.linkText.Some? && h.linkText.value != "" ==> e.eventLabel == Some(h.linkText.value))
      && (h.linkText.None? || h.linkText.value == "" ==> e.eventLabel == Some(h.url))
    ensures h.FileDownload? ==>
      e.action == "download" && e.category == "file" && e.eventLabel == Some(h.fileName)
    ensures h.CookieConsent? ==>
      e.action == ConsentActionName(h.consentAction) && e.category == "cookie_consent" && e.eventLabel == None
    ensures h.Privacy? ==>
      e.action == PrivacyActionName(h.privacyAction) && e.category == "privacy_control" && e.eventLabel == None
  {
    match h
    case ContactFormSubmit => EventArgs("submit", "contact_form", Some("header"), None)
    case LanguageSwitch(newLanguage) => EventArgs("language_switch", "navigation", Some(newLanguage), None)
    case ExternalLink(url, linkText) =>
      var text := if linkText.Some? && linkText.value != "" then linkText.value else url;
      EventArgs("click", "external_link", Some(text), None)
    case FileDownload(fileName) => EventArgs("download", "file", Some(fileName), None)
    case CookieConsent(a) => EventArgs(ConsentActionName(a), "cookie_consent", None, None)
    case Privacy(a) => EventArgs(PrivacyActionName(a), "privacy_control", None, None)
  }

  /** `withAnalytics(Component, eventCategory)`'s `onAnalyticsEvent(action, label, value)`. */
  function OnAnalyticsEvent(eventCategory: string, action: string, eventLabel: Option<string>,
                            value: Option<int>): (e: EventArgs)
    ensures e.category == eventCategory
    ensures e.action == action && e.eventLabel == eventLabel && e.value == value
  {
    EventArgs(action, eventCategory, eventLabel, value)
  }

  /**
   * `trackCustomEvent`: checks the gate, then calls `trackEvent`, which checks
   * it again. The outer check changes nothing: the result is what a direct
   * `trackEvent` call gives.
   */
  function AfterTrackCustomEvent(cfg: Config, s: BrowserState, e: EventArgs): (r: BrowserState)
    ensures r == AfterTrackEvent(cfg, s, e.action, e.category, e.eventLabel, e.value)
    ensures !IsAnalyticsActive(cfg, s.store) ==> r == s
  {
    if IsAnalyticsActive(cfg, s.store) then AfterTrackEvent(cfg, s, e.action, e.category, e.eventLabel, e.value)
    else s
  }

  method TrackCustomEvent(analytics: Analytics, e: EventArgs)
    modifies analytics
    ensures analytics.State() == AfterTrackCustomEvent(analytics.config, old(analytics.State()), e)
  {
    if IsAnalyticsActive(analytics.config, analytics.store) {
      analytics.TrackEvent(e.action, e.category, e.eventLabel, e.value);
    }
  }

  /** A helper callback: its fixed event, forwarded through `trackCustomEvent`. */
  method TrackHelper(analytics: Analytics, h: Helper)
    modifies analytics
    ensures analytics.State() == AfterTrackCustomEvent(analytics.config, old(analytics.State()), HelperEvent(h))
  {
    TrackCustomEvent(analytics, HelperEvent(h));
  }

  /**
   * What a helper sends: nothing through a closed gate, and through an open
   * one exactly one non-interaction event carrying the helper's tuple.
   */
  lemma HelperSendsOnlyThroughGate(cfg: Config, s: BrowserState, h: Helper)
    ensures var r := AfterTrackCustomEvent(cfg, s, HelperEvent(h));
      && (!IsAnalyticsActive(cfg, s.store) ==> r == s)
      && (IsAnalyticsActive(cfg, s.store) ==>
            var e := HelperEvent(h);
            r.log == s.log + [Event(e.action, e.category, e.eventLabel, e.value, true)])
      && r.store == s.store
  {
  }

  /**
   * No contact-form content reaches the vendor: whatever the form held, the
   * contact-form helper sends the same payload.
   */
  lemma ContactFormCarriesNoFormContent(cfg: Config, s: BrowserState)
    ensures var r := AfterTrackCustomEvent(cfg, s, HelperEvent(ContactFormSubmit));
      r.log == s.log || r.log == s.log + [Event("submit", "contact_form", Some("header"), None, true)]
  {
  }
}
