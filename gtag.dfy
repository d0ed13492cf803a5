/**
 * The consent-gated analytics layer (lib/gtag.ts).
 *
 * Pure reads of configuration and storage (`IsAnalyticsEnabled`,
 * `IsAnalyticsActive`, `GetOptOutStatus`) are functions. Each operation that
 * changes the browser has two forms: a function `After…` that gives the
 * browser state after the call, and a method of the class `Analytics` that
 * performs the same steps one write at a time and is proved to reach exactly
 * that state.
 */
module Gtag {
  import opened Wrappers

  /** The two browser-store keys the analytics layer reads and writes. */
  const ConsentKey: string := "cookie-consent"
  const OptOutKey: string := "ga-opt-out"

  /** Build-time environment and the "runs in a browser" capability. */
  datatype Config = Config(
    trackingId: Option<string>,           // NEXT_PUBLIC_GOOGLE_ANALYTICS_ID
    analyticsEnabledEnv: Option<string>,  // NEXT_PUBLIC_ANALYTICS_ENABLED
    hasWindow: bool)                      // false during server-side rendering

  /** The tracking id is truthy: present and non-empty. */
  predicate HasTrackingId(cfg: Config) {
    cfg.trackingId.Some? && cfg.trackingId.value != ""
  }

  function TrackingId(cfg: Config): string
    requires HasTrackingId(cfg)
  {
    cfg.trackingId.value
  }

  /** The string-keyed browser store (`localStorage`). */
  type Store = map<string, string>

  /** `localStorage.getItem(key)`: `None` stands for `null`. */
  function ItemOf(store: Store, key: string): Option<string> {
    if key in store then Some(store[key]) else None
  }

  /** The vendor's consent signal values. */
  datatype ConsentSignal = Granted | Denied

  /** One call of the vendor function `gtag`, with the payload fields the code sets. */
  datatype GtagCall =
    | ConsentUpdate(analyticsStorage: ConsentSignal, adStorage: ConsentSignal,
                    adUserData: ConsentSignal, adPersonalization: ConsentSignal)
    | PageConfig(trackingId: string, pagePath: string, pageTitle: string, pageLocation: string)
    | Event(action: string, eventCategory: string, eventLabel: Option<string>,
            value: Option<int>, nonInteraction: bool)

  /** A call that reports user activity to the vendor (as opposed to a consent signal). */
  predicate IsTrackingCall(c: GtagCall) {
    c.PageConfig? || c.Event?
  }

  /** No element of `calls` is a tracking call. */
  predicate NoTrackingCalls(calls: seq<GtagCall>) {
    forall i :: 0 <= i < |calls| ==> !IsTrackingCall(calls[i])
  }

  /**
   * Everything the analytics layer can change in the browser: the store, the
   * `window['ga-disable-<id>']` flags, the cookies it expired, and the log of
   * vendor calls.
   */
  datatype BrowserState = BrowserState(
    store: Store,
    disableFlags: map<string, bool>,
    expiredCookies: set<string>,
    log: seq<GtagCall>)

  /** The vendor's per-property kill switch `ga-disable-<id>`. */
  function DisableFlagName(id: string): string {
    "ga-disable-" + id
  }

  /** JavaScript's `s.slice(2)`. */
  function DropTwo(s: string): (r: string)
    ensures |s| >= 2 ==> s == s[..2] + r
    ensures |s| < 2 ==> r == ""
  {
    if |s| >= 2 then s[2..] else ""
  }

  /** The vendor cookies expired by a deletion request. */
  function VendorCookieNames(id: string): (names: set<string>)
    ensures "_ga" in names && "_gid" in names && "_ga_" + DropTwo(id) in names
    ensures |names| == 3
  {
    assert "_ga" != "_ga_" + DropTwo(id) by { assert |"_ga"| < |"_ga_" + DropTwo(id)|; }
    assert "_gid" != "_ga_" + DropTwo(id) by { assert ("_ga_" + DropTwo(id))[3] == '_'; }
    {"_ga", "_ga_" + DropTwo(id), "_gid"}
  }

  // ---------------------------------------------------------------------------
  // Pure reads of configuration and storage

  /** Analytics is configured: a tracking id and the enabled flag `'true'`. */
  predicate IsAnalyticsEnabled(cfg: Config): (enabled: bool)
    ensures enabled <==> cfg.trackingId.Some? && |cfg.trackingId.value| > 0 && cfg.analyticsEnabledEnv == Some("true")
  {
    HasTrackingId(cfg) && cfg.analyticsEnabledEnv == Some("true")
  }

  /** The tracking gate. */
  function IsAnalyticsActive(cfg: Config, store: Store): (active: bool)
    ensures active <==>
      && cfg.hasWindow
      && cfg.trackingId.Some? && |cfg.trackingId.value| > 0
      && cfg.analyticsEnabledEnv == Some("true")
      && ConsentKey in store && store[ConsentKey] == "accepted"
      && !(OptOutKey in store && store[OptOutKey] == "true")
  {
    if !cfg.hasWindow || !IsAnalyticsEnabled(cfg) then false
    else
      var consent := ItemOf(store, ConsentKey);
      var optOut := ItemOf(store, OptOutKey);
      consent == Some("accepted") && optOut != Some("true")
  }

  /** Whether the user has opted out; always false outside a browser. */
  function GetOptOutStatus(cfg: Config, store: Store): (optedOut: bool)
    ensures optedOut <==> cfg.hasWindow && OptOutKey in store && store[OptOutKey] == "true"
    ensures optedOut ==> !IsAnalyticsActive(cfg, store)
  {
    if !cfg.hasWindow then false else ItemOf(store, OptOutKey) == Some("true")
  }

  // ---------------------------------------------------------------------------
  // The state after each operation

  /** The consent update sent for `granted`: only analytics storage follows the user. */
  function ConsentUpdateFor(granted: bool): (c: GtagCall)
    ensures c.ConsentUpdate?
    ensures c.analyticsStorage == Granted <==> granted
    ensures c.adStorage == Denied && c.adUserData == Denied && c.adPersonalization == Denied
  {
    ConsentUpdate(if granted then Granted else Denied, Denied, Denied, Denied)
  }

  /** `updateConsent(granted)`. */
  function AfterUpdateConsent(cfg: Config, s: BrowserState, granted: bool): (r: BrowserState)
    ensures r.store == s.store && r.disableFlags == s.disableFlags
    ensures r.expiredCookies == s.expiredCookies
    ensures !IsAnalyticsEnabled(cfg) || !cfg.hasWindow ==> r.log == s.log
    ensures IsAnalyticsEnabled(cfg) && cfg.hasWindow ==>
      |r.log| == |s.log| + 1 && r.log[..|s.log|] == s.log && r.log[|s.log|] == ConsentUpdateFor(granted)
    ensures s.log <= r.log && NoTrackingCalls(r.log[|s.log|..])
  {
    if !IsAnalyticsEnabled(cfg) || !cfg.hasWindow then s
    else s.(log := s.log + [ConsentUpdateFor(granted)])
  }

  /** The page title reported: `title || document.title`. */
  function PageTitle(title: Option<string>, documentTitle: string): (t: string)
    ensures title.Some? && title.value != "" ==> t == title.value
    ensures title.None? || title.value == "" ==> t == documentTitle
  {
    if title.Some? && title.value != "" then title.value else documentTitle
  }

  /** `trackPageView(url, title)`, with `document.title` and `window.location.href` as inputs. */
  function AfterTrackPageView(cfg: Config, s: BrowserState, url: string, title: Option<string>,
                              documentTitle: string, href: string): (r: BrowserState)
    ensures r.store == s.store && r.disableFlags == s.disableFlags
    ensures r.expiredCookies == s.expiredCookies
    ensures s.log <= r.log
    ensures |r.log| == |s.log| + (if IsAnalyticsActive(cfg, s.store) then 1 else 0)
    ensures IsAnalyticsActive(cfg, s.store) ==>
      var c := r.log[|s.log|];
      c.PageConfig? && c.trackingId == TrackingId(cfg) && c.pagePath == url
      && c.pageTitle == PageTitle(title, documentTitle) && c.pageLocation == href
  {
    if !IsAnalyticsActive(cfg, s.store) then s
    else s.(log := s.log + [PageConfig(TrackingId(cfg), url, PageTitle(title, documentTitle), href)])
  }

  /** `trackEvent(action, category, label, value)`. */
  function AfterTrackEvent(cfg: Config, s: BrowserState, action: string, category: string,
                           eventLabel: Option<string>, value: Option<int>): (r: BrowserState)
    ensures r.store == s.store && r.disableFlags == s.disableFlags
    ensures r.expiredCookies == s.expiredCookies
    ensures s.log <= r.log
    ensures |r.log| == |s.log| + (if IsAnalyticsActive(cfg, s.store) then 1 else 0)
    ensures IsAnalyticsActive(cfg, s.store) ==>
      var c := r.log[|s.log|];
      c.Event? && c.action == action && c.eventCategory == category
      && c.eventLabel == eventLabel && c.value == value && c.nonInteraction
  {
    if !IsAnalyticsActive(cfg, s.store) then s
    else s.(log := s.log + [Event(action, category, eventLabel, value, true)])
  }

  /** `optOutAnalytics()`. */
  function AfterOptOut(cfg: Config, s: BrowserState): (r: BrowserState)
    ensures ItemOf(r.store, OptOutKey) == Some("true")
    ensures r.store - {OptOutKey} == s.store - {OptOutKey}
    ensures cfg.hasWindow ==> GetOptOutStatus(cfg, r.store)
    ensures !IsAnalyticsActive(cfg, r.store)
    ensures r.expiredCookies == s.expiredCookies
    ensures s.log <= r.log && NoTrackingCalls(r.log[|s.log|..])
    ensures cfg.hasWindow && HasTrackingId(cfg) ==>
      r.disableFlags == s.disableFlags[DisableFlagName(TrackingId(cfg)) := true]
    ensures !(cfg.hasWindow && HasTrackingId(cfg)) ==> r.disableFlags == s.disableFlags && r.log == s.log
    ensures cfg.hasWindow && IsAnalyticsEnabled(cfg) ==> r.log == s.log + [ConsentUpdateFor(false)]
    ensures r.log == s.log || r.log == s.log + [ConsentUpdateFor(false)]
    ensures r.log != s.log <==> cfg.hasWindow && IsAnalyticsEnabled(cfg)
  {
    var s1 := s.(store := s.store[OptOutKey := "true"]);
    if cfg.hasWindow && HasTrackingId(cfg) then
      var s2 := s1.(disableFlags := s1.disableFlags[DisableFlagName(TrackingId(cfg)) := true]);
      AfterUpdateConsent(cfg, s2, false)
    else s1
  }

  /** `optInAnalytics()`: removes the opt-out; never writes the consent key. */
  function AfterOptIn(cfg: Config, s: BrowserState): (r: BrowserState)
    ensures OptOutKey !in r.store
    ensures r.store == s.store - {OptOutKey}
    ensures ItemOf(r.store, ConsentKey) == ItemOf(s.store, ConsentKey)
    ensures !GetOptOutStatus(cfg, r.store)
    ensures r.expiredCookies == s.expiredCookies
    ensures cfg.hasWindow && HasTrackingId(cfg) ==>
      r.disableFlags == s.disableFlags[DisableFlagName(TrackingId(cfg)) := false]
    ensures !(cfg.hasWindow && HasTrackingId(cfg)) ==> r.disableFlags == s.disableFlags
    ensures r.log == s.log || r.log == s.log + [ConsentUpdateFor(true)]
    ensures r.log != s.log <==>
      cfg.hasWindow && IsAnalyticsEnabled(cfg) && ItemOf(s.store, ConsentKey) == Some("accepted")
  {
    var s1 := s.(store := s.store - {OptOutKey});
    if cfg.hasWindow && HasTrackingId(cfg) then
      var s2 := s1.(disableFlags := s1.disableFlags[DisableFlagName(TrackingId(cfg)) := false]);
      var consent := ItemOf(s2.store, ConsentKey);
      if consent == Some("accepted") then AfterUpdateConsent(cfg, s2, true) else s2
    else s1
  }

  /** `requestDataDeletion()`. */
  function AfterRequestDataDeletion(cfg: Config, s: BrowserState): (r: BrowserState)
    ensures ConsentKey !in r.store
    ensures ItemOf(r.store, OptOutKey) == Some("true")
    ensures r.store - {ConsentKey, OptOutKey} == s.store - {ConsentKey, OptOutKey}
    ensures !IsAnalyticsActive(cfg, r.store)
    ensures r.disableFlags == s.disableFlags && r.log == s.log
    ensures cfg.hasWindow && HasTrackingId(cfg) ==>
      r.expiredCookies == s.expiredCookies + VendorCookieNames(TrackingId(cfg))
    ensures !(cfg.hasWindow && HasTrackingId(cfg)) ==> r.expiredCookies == s.expiredCookies
  {
    var s1 := s.(store := (s.store - {ConsentKey})[OptOutKey := "true"]);
    if cfg.hasWindow && HasTrackingId(cfg) then
      s1.(expiredCookies := s1.expiredCookies + VendorCookieNames(TrackingId(cfg)))
    else s1
  }

  // ---------------------------------------------------------------------------
  // Sequences of operations

  /** A call into the analytics layer, with its arguments and the page context it reads. */
  datatype Op =
    | UpdateConsentOp(granted: bool)
    | TrackPageViewOp(url: string, title: Option<string>, documentTitle: string, href: string)
    | TrackEventOp(action: string, category: string, eventLabel: Option<string>, value: Option<int>)
    | OptOutOp
    | OptInOp
    | RequestDataDeletionOp

  function Step(cfg: Config, s: BrowserState, op: Op): BrowserState {
    match op
    case UpdateConsentOp(granted) => AfterUpdateConsent(cfg, s, granted)
    case TrackPageViewOp(url, title, documentTitle, href) =>
      AfterTrackPageView(cfg, s, url, title, documentTitle, href)
    case TrackEventOp(action, category, eventLabel, value) =>
      AfterTrackEvent(cfg, s, action, category, eventLabel, value)
    case OptOutOp => AfterOptOut(cfg, s)
    case OptInOp => AfterOptIn(cfg, s)
    case RequestDataDeletionOp => AfterRequestDataDeletion(cfg, s)
  }

  /** The state after the operations `ops`, in order. */
  function Run(cfg: Config, s: BrowserState, ops: seq<Op>): BrowserState
    decreases |ops|
  {
    if ops == [] then s else Run(cfg, Step(cfg, s, ops[0]), ops[1..])
  }

  // ---------------------------------------------------------------------------
  // The imperative layer: one object holding the browser state

  class Analytics {
    const config: Config
    var store: Store
    var disableFlags: map<string, bool>
    var expiredCookies: set<string>
    var log: seq<GtagCall>

    function State(): BrowserState
      reads this
    {
      BrowserState(store, disableFlags, expiredCookies, log)
    }

    constructor (config: Config, store: Store)
      ensures this.config == config
      ensures State() == BrowserState(store, map[], {}, [])
    {
      this.config := config;
      this.store := store;
      disableFlags := map[];
      expiredCookies := {};
      log := [];
    }

    /** `localStorage.getItem(key)`. */
    method GetItem(key: string) returns (value: Option<string>)
      ensures value.Some? <==> key in store
      ensures value.Some? ==> value.value == store[key]
    {
      if key in store {
        value := Some(store[key]);
      } else {
        value := None;
      }
    }

    /** `localStorage.setItem(key, value)`. */
    method SetItem(key: string, value: string)
      modifies this
      ensures State() == old(State()).(store := old(store)[key := value])
    {
      store := store[key := value];
    }

    /** `localStorage.removeItem(key)`. */
    method RemoveItem(key: string)
      modifies this
      ensures State() == old(State()).(store := old(store) - {key})
    {
      store := store - {key};
    }

    /** `window[name] = value`. */
    method SetWindowFlag(name: string, value: bool)
      modifies this
      ensures State() == old(State()).(disableFlags := old(disableFlags)[name := value])
    {
      disableFlags := disableFlags[name := value];
    }

    /** `document.cookie = name + '=; expires=<the epoch>…'`. */
    method ExpireCookie(name: string)
      modifies this
      ensures State() == old(State()).(expiredCookies := old(expiredCookies) + {name})
    {
      expiredCookies := expiredCookies + {name};
    }

    /** `window.gtag(...)`. */
    method Send(call: GtagCall)
      modifies this
      ensures State() == old(State()).(log := old(log) + [call])
    {
      log := log + [call];
    }

    method UpdateConsent(granted: bool)
      modifies this
      ensures State() == AfterUpdateConsent(config, old(State()), granted)
    {
      if !IsAnalyticsEnabled(config) || !config.hasWindow {
        return;
      }
      Send(ConsentUpdate(if granted then Granted else Denied, Denied, Denied, Denied));
    }

    method TrackPageView(url: string, title: Option<string>, documentTitle: string, href: string)
      modifies this
      ensures State() == AfterTrackPageView(config, old(State()), url, title, documentTitle, href)
    {
      if !IsAnalyticsActive(config, store) {
        return;
      }
      var pageTitle := if title.Some? && title.value != "" then title.value else documentTitle;
      Send(PageConfig(config.trackingId.value, url, pageTitle, href));
    }

    method TrackEvent(action: string, category: string, eventLabel: Option<string>, value: Option<int>)
      modifies this
      ensures State() == AfterTrackEvent(config, old(State()), action, category, eventLabel, value)
    {
      if !IsAnalyticsActive(config, store) {
        return;
      }
      Send(Event(action, category, eventLabel, value, true));
    }

    method OptOut()
      modifies this
      ensures State() == AfterOptOut(config, old(State()))
    {
      SetItem(OptOutKey, "true");
      if config.hasWindow && HasTrackingId(config) {
        SetWindowFlag(DisableFlagName(config.trackingId.value), true);
        UpdateConsent(false);
      }
    }

    method OptIn()
      modifies this
      ensures State() == AfterOptIn(config, old(State()))
    {
      RemoveItem(OptOutKey);
      if config.hasWindow && HasTrackingId(config) {
        SetWindowFlag(DisableFlagName(config.trackingId.value), false);
        var consent := GetItem(ConsentKey);
        if consent == Some("accepted") {
          UpdateConsent(true);
        }
      }
    }

    method RequestDataDeletion()
      modifies this
      ensures State() == AfterRequestDataDeletion(config, old(State()))
    {
      RemoveItem(ConsentKey);
      SetItem(OptOutKey, "true");
      if config.hasWindow && HasTrackingId(config) {
        var id := config.trackingId.value;
        ExpireCookie("_ga");
        ExpireCookie("_ga_" + (if |id| >= 2 then id[2..] else ""));
        ExpireCookie("_gid");
      }
    }
  }
}
