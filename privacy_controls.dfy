/**
 * The privacy-settings card (app/components/PrivacyControls.tsx): an
 * `analyticsEnabled` switch state kept in step with the opt-out flag, and a
 * deletion button, both acting through the analytics layer.
 */
module PrivacyControls {
  import opened Wrappers
  import opened Gtag

  /** The rendered state of a switch. */
  datatype SwitchState = SwitchState(checked: bool, disabled: bool)

  /** The essential-cookies switch: on, and not changeable by the user. */
  function EssentialCookiesSwitch(): (sw: SwitchState)
    ensures sw.checked && sw.disabled
  {
    SwitchState(true, true)
  }

  class PrivacyControls {
    const analytics: Analytics
    var analyticsEnabled: bool

    /** `useState(false)`. */
    constructor (analytics: Analytics)
      ensures this.analytics == analytics
      ensures !analyticsEnabled
    {
      this.analytics := analytics;
      analyticsEnabled := false;
    }

    /** The analytics switch as rendered. */
    function AnalyticsSwitch(): (sw: SwitchState)
      reads this
      ensures sw.checked == analyticsEnabled && !sw.disabled
    {
      SwitchState(analyticsEnabled, false)
    }

    /** The mount effect: the switch shows whether the user has not opted out. */
    method Mount()
      modifies this
      ensures analyticsEnabled == !GetOptOutStatus(analytics.config, analytics.store)
    {
      analyticsEnabled := !GetOptOutStatus(analytics.config, analytics.store);
    }

    /** `handleAnalyticsToggle(enabled)`. */
    method HandleAnalyticsToggle(enabled: bool)
      modifies this, analytics
      ensures analyticsEnabled == enabled
      ensures analytics.State() ==
        if enabled then AfterOptIn(analytics.config, old(analytics.State()))
        else AfterOptOut(analytics.config, old(analytics.State()))
      // the switch and the stored opt-out flag agree (outside a browser the flag reads false)
      ensures analytics.config.hasWindow ==> GetOptOutStatus(analytics.config, analytics.store) == !enabled
      ensures !enabled ==> !IsAnalyticsActive(analytics.config, analytics.store)
      // switching on never creates consent
      ensures ItemOf(old(analytics.store), ConsentKey) != Some("accepted") ==>
        !IsAnalyticsActive(analytics.config, analytics.store)
    {
      if enabled {
        analytics.OptIn();
      } else {
        analytics.OptOut();
      }
      analyticsEnabled := enabled;
    }

    /** `handleDataDeletion()`; the confirmation alert is not modelled. */
    method HandleDataDeletion()
      modifies this, analytics
      ensures !analyticsEnabled
      ensures analytics.State() == AfterRequestDataDeletion(analytics.config, old(analytics.State()))
      ensures ItemOf(analytics.store, OptOutKey) == Some("true")
      ensures ConsentKey !in analytics.store
      ensures !IsAnalyticsActive(analytics.config, analytics.store)
    {
      analytics.RequestDataDeletion();
      analyticsEnabled := false;
    }
  }

  /**
   * Deleting and then switching analytics back on shows the switch on, but the
   * gate stays closed and nothing is sent: the consent value is gone.
   */
  method DeleteThenToggleOn(controls: PrivacyControls)
    modifies controls, controls.analytics
    ensures controls.analyticsEnabled
    ensures !IsAnalyticsActive(controls.analytics.config, controls.analytics.store)
    ensures controls.analytics.log == old(controls.analytics.log)
  {
    controls.HandleDataDeletion();
    controls.HandleAnalyticsToggle(true);
  }
}
