/**
 * Properties of the analytics layer that relate several calls: the gate is
 * the only way to the vendor, no operation grants consent, opt-out and
 * deletion close the gate, and only the two analytics keys of the store are
 * ever touched.
 */
module GtagProperties {
  import opened Wrappers
  import opened Gtag

  /** The store keys the analytics layer owns. */
  const GateKeys: set<string> := {ConsentKey, OptOutKey}

  /** `a` and `b` agree on every key outside the two analytics keys. */
  predicate SameOutsideGateKeys(a: Store, b: Store) {
    a - GateKeys == b - GateKeys
  }

  /** The calls appended after `before` contain no tracking call. */
  predicate NoTrackingSince(before: BrowserState, after: BrowserState) {
    before.log <= after.log && NoTrackingCalls(after.log[|before.log|..])
  }

  lemma NoTrackingSinceTrans(a: BrowserState, b: BrowserState, c: BrowserState)
    requires NoTrackingSince(a, b) && NoTrackingSince(b, c)
    ensures NoTrackingSince(a, c)
  {
    forall i | 0 <= i < |c.log| - |a.log|
      ensures !IsTrackingCall(c.log[|a.log|..][i])
    {
      if i < |b.log| - |a.log| {
        assert c.log[|a.log|..][i] == b.log[|a.log|..][i];
      } else {
        assert c.log[|a.log|..][i] == c.log[|b.log|..][i - (|b.log| - |a.log|)];
      }
    }
  }

  lemma SameOutsideTrans(a: Store, b: Store, c: Store)
    requires SameOutsideGateKeys(a, b) && SameOutsideGateKeys(b, c)
    ensures SameOutsideGateKeys(a, c)
  {
  }

  // ---------------------------------------------------------------------------
  // One operation

  /** A single operation changes no store key but the two analytics keys. */
  lemma StepTouchesOnlyGateKeys(cfg: Config, s: BrowserState, op: Op)
    ensures SameOutsideGateKeys(s.store, Step(cfg, s, op).store)
  {
    var r := Step(cfg, s, op);
    match op
    case OptOutOp =>
      assert r.store - GateKeys == (r.store - {OptOutKey}) - {ConsentKey};
      assert s.store - GateKeys == (s.store - {OptOutKey}) - {ConsentKey};
    case OptInOp =>
      assert r.store - GateKeys == (s.store - {OptOutKey}) - GateKeys;
      assert (s.store - {OptOutKey}) - GateKeys == s.store - GateKeys;
    case _ =>
  }

  /**
   * A single operation sends a tracking call only through an open gate, and
   * never sets the consent key: it keeps its value or removes it.
   */
  lemma StepGated(cfg: Config, s: BrowserState, op: Op)
    ensures s.log <= Step(cfg, s, op).log
    ensures !IsAnalyticsActive(cfg, s.store) ==> NoTrackingSince(s, Step(cfg, s, op))
    ensures var c := ItemOf(Step(cfg, s, op).store, ConsentKey);
      c == ItemOf(s.store, ConsentKey) || c == None
  {
    var r := Step(cfg, s, op);
    match op
    case TrackPageViewOp(_, _, _, _) =>
      if !IsAnalyticsActive(cfg, s.store) { assert r.log[|s.log|..] == []; }
    case TrackEventOp(_, _, _, _) =>
      if !IsAnalyticsActive(cfg, s.store) { assert r.log[|s.log|..] == []; }
    case RequestDataDeletionOp =>
      assert r.log[|s.log|..] == [];
    case _ =>
  }

  /** Opt-out, deletion and every operation except opt-in keep an opt-out in place. */
  lemma StepKeepsOptOut(cfg: Config, s: BrowserState, op: Op)
    requires ItemOf(s.store, OptOutKey) == Some("true")
    requires !op.OptInOp?
    ensures ItemOf(Step(cfg, s, op).store, OptOutKey) == Some("true")
  {
  }

  // ---------------------------------------------------------------------------
  // Any sequence of operations

  /** The vendor log is append-only and the store outside the analytics keys is never touched. */
  lemma {:induction false} RunFrame(cfg: Config, s: BrowserState, ops: seq<Op>)
    ensures s.log <= Run(cfg, s, ops).log
    ensures SameOutsideGateKeys(s.store, Run(cfg, s, ops).store)
    decreases |ops|
  {
    if ops != [] {
      var s1 := Step(cfg, s, ops[0]);
      StepGated(cfg, s, ops[0]);
      StepTouchesOnlyGateKeys(cfg, s, ops[0]);
      RunFrame(cfg, s1, ops[1..]);
      SameOutsideTrans(s.store, s1.store, Run(cfg, s1, ops[1..]).store);
    }
  }

  /** No sequence of operations sets the consent key to `'accepted'`. */
  lemma {:induction false} RunNeverGrantsConsent(cfg: Config, s: BrowserState, ops: seq<Op>)
    ensures ItemOf(Run(cfg, s, ops).store, ConsentKey) == Some("accepted") ==>
      ItemOf(s.store, ConsentKey) == Some("accepted")
    decreases |ops|
  {
    if ops != [] {
      StepGated(cfg, s, ops[0]);
      RunNeverGrantsConsent(cfg, Step(cfg, s, ops[0]), ops[1..]);
    }
  }

  /**
   * Without an external `'accepted'` consent value, no sequence of
   * operations ever sends a tracking call.
   */
  lemma {:induction false} NoConsentNoTracking(cfg: Config, s: BrowserState, ops: seq<Op>)
    requires ItemOf(s.store, ConsentKey) != Some("accepted")
    ensures NoTrackingSince(s, Run(cfg, s, ops))
    ensures !IsAnalyticsActive(cfg, Run(cfg, s, ops).store)
    decreases |ops|
  {
    if ops == [] {
      assert s.log[|s.log|..] == [];
    } else {
      var s1 := Step(cfg, s, ops[0]);
      StepGated(cfg, s, ops[0]);
      NoConsentNoTracking(cfg, s1, ops[1..]);
      NoTrackingSinceTrans(s, s1, Run(cfg, s1, ops[1..]));
    }
  }

  /**
   * Once the user has opted out, no tracking call is sent by any sequence of
   * operations that does not opt back in.
   */
  lemma {:induction false} OptOutHoldsUntilOptIn(cfg: Config, s: BrowserState, ops: seq<Op>)
    requires ItemOf(s.store, OptOutKey) == Some("true")
    requires forall i :: 0 <= i < |ops| ==> !ops[i].OptInOp?
    ensures NoTrackingSince(s, Run(cfg, s, ops))
    ensures ItemOf(Run(cfg, s, ops).store, OptOutKey) == Some("true")
    decreases |ops|
  {
    if ops == [] {
      assert s.log[|s.log|..] == [];
    } else {
      var s1 := Step(cfg, s, ops[0]);
      StepGated(cfg, s, ops[0]);
      StepKeepsOptOut(cfg, s, ops[0]);
      OptOutHoldsUntilOptIn(cfg, s1, ops[1..]);
      NoTrackingSinceTrans(s, s1, Run(cfg, s1, ops[1..]));
    }
  }

  // ---------------------------------------------------------------------------
  // Revocation, deletion and their interplay with opt-in

  /** Revocation takes effect at once: the very next event or page view sends nothing. */
  lemma OptOutStopsTracking(cfg: Config, s: BrowserState, action: string, category: string,
                            eventLabel: Option<string>, value: Option<int>,
                            url: string, title: Option<string>, documentTitle: string, href: string)
    ensures var o := AfterOptOut(cfg, s);
      AfterTrackEvent(cfg, o, action, category, eventLabel, value) == o
      && AfterTrackPageView(cfg, o, url, title, documentTitle, href) == o
  {
  }

  /**
   * Deletion is terminal: after it, no sequence of operations, opt-in
   * included, opens the gate or sends a tracking call.
   */
  lemma DeletionIsTerminal(cfg: Config, s: BrowserState, ops: seq<Op>)
    ensures var d := AfterRequestDataDeletion(cfg, s);
      NoTrackingSince(d, Run(cfg, d, ops)) && !IsAnalyticsActive(cfg, Run(cfg, d, ops).store)
  {
    NoConsentNoTracking(cfg, AfterRequestDataDeletion(cfg, s), ops);
  }

  /** Deleting twice leaves the same browser state as deleting once. */
  lemma DeletionIdempotent(cfg: Config, s: BrowserState)
    ensures var d := AfterRequestDataDeletion(cfg, s);
      AfterRequestDataDeletion(cfg, d) == d
  {
    var d := AfterRequestDataDeletion(cfg, s);
    assert (d.store - {ConsentKey})[OptOutKey := "true"] == d.store;
  }

  /** Opting in after a deletion does not reopen the gate: opt-in never restores consent. */
  lemma OptInAfterDeletionStaysInactive(cfg: Config, s: BrowserState)
    ensures var r := AfterOptIn(cfg, AfterRequestDataDeletion(cfg, s));
      !IsAnalyticsActive(cfg, r.store) && r.log == s.log
  {
  }

  /**
   * Opting in undoes an opt-out on the store: the result is the original
   * store without an opt-out entry, so the gate is open again exactly when
   * the stored consent is `'accepted'` and analytics is configured.
   */
  lemma OptInUndoesOptOut(cfg: Config, s: BrowserState)
    ensures var r := AfterOptIn(cfg, AfterOptOut(cfg, s));
      r.store == s.store - {OptOutKey}
      && (IsAnalyticsActive(cfg, r.store) <==>
            cfg.hasWindow && IsAnalyticsEnabled(cfg) && ItemOf(s.store, ConsentKey) == Some("accepted"))
  {
    var o := AfterOptOut(cfg, s);
    assert o.store - {OptOutKey} == s.store - {OptOutKey};
  }
}
