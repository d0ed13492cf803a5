/**
 * The cookie banner (app/components/CookieConsent.tsx): whether to show it is
 * decided once, on mount, from an environment flag and the `document.cookie`
 * string; accepting or declining hides it.
 */
module CookieConsent {
  import opened Wrappers
  import opened Strings

  /** The separator `document.cookie` entries are split on. */
  const Separator: string := "; "

  /** The prefix of the banner's own cookie entry. */
  const ConsentEntryPrefix: string := "cookieConsent="

  /** `t` occurs in `s` at index `i`. */
  predicate OccursAt(s: string, i: int, t: string) {
    0 <= i && i + |t| <= |s| && s[i..i + |t|] == t
  }

  /** JavaScript's `s.split("; ")`, scanning left to right with the entry read so far. */
  function SplitFrom(rest: string, current: string): (entries: seq<string>)
    ensures |entries| >= 1
    decreases |rest|
  {
    if rest == [] then [current]
    else if StartsWith(rest, Separator) then [current] + SplitFrom(rest[|Separator|..], "")
    else SplitFrom(rest[1..], current + [rest[0]])
  }

  function SplitEntries(cookie: string): seq<string> {
    SplitFrom(cookie, "")
  }

  /** `entries.join("; ")`. */
  function JoinEntries(entries: seq<string>): string
    requires |entries| >= 1
    decreases |entries|
  {
    if |entries| == 1 then entries[0] else entries[0] + Separator + JoinEntries(entries[1..])
  }

  /** Joining the entries again gives back the cookie string: nothing is lost by the split. */
  lemma {:induction false} JoinSplitFrom(rest: string, current: string)
    ensures JoinEntries(SplitFrom(rest, current)) == current + rest
    decreases |rest|
  {
    if rest == [] {
    } else if StartsWith(rest, Separator) {
      JoinSplitFrom(rest[|Separator|..], "");
      assert rest == Separator + rest[|Separator|..];
    } else {
      JoinSplitFrom(rest[1..], current + [rest[0]]);
      assert current + [rest[0]] + rest[1..] == current + rest;
    }
  }

  /** The separator `"; "` does not occur in `e`. */
  predicate HasNoSeparator(e: string) {
    forall i :: 0 <= i < |e| ==> !OccursAt(e, i, Separator)
  }

  /**
   * Every entry read from a scan position is free of `"; "`, provided the
   * entry read so far is, and does not end in `;` just before a space.
   */
  lemma {:induction false} SplitFromHasNoSeparator(rest: string, current: string)
    requires HasNoSeparator(current)
    requires current != [] && current[|current| - 1] == ';' ==> rest == [] || rest[0] != ' '
    ensures forall k :: 0 <= k < |SplitFrom(rest, current)| ==> HasNoSeparator(SplitFrom(rest, current)[k])
    decreases |rest|
  {
    if rest == [] {
    } else if StartsWith(rest, Separator) {
      SplitFromHasNoSeparator(rest[|Separator|..], "");
      var tail := SplitFrom(rest[|Separator|..], "");
      assert SplitFrom(rest, current) == [current] + tail;
      forall k | 0 <= k < |[current] + tail|
        ensures HasNoSeparator(([current] + tail)[k])
      {
        if k > 0 {
          assert ([current] + tail)[k] == tail[k - 1];
        }
      }
    } else {
      var next := current + [rest[0]];
      forall i | 0 <= i < |next|
        ensures !OccursAt(next, i, Separator)
      {
        if i + 2 <= |current| {
          assert next[i..i + 2] == current[i..i + 2];
          assert !OccursAt(current, i, Separator);
        } else if i + 2 == |next| {
          assert next[i..i + 2] == [current[i], rest[0]];
          if |rest| >= 2 {
            assert rest[..2] == [rest[0], rest[1]];
          }
        }
      }
      if rest[0] == ';' && |rest| >= 2 {
        assert rest[..2] == [rest[0], rest[1]];
      }
      SplitFromHasNoSeparator(rest[1..], next);
    }
  }

  /** No entry of the split contains the separator. */
  lemma SplitEntriesHaveNoSeparator(cookie: string)
    ensures forall k :: 0 <= k < |SplitEntries(cookie)| ==> HasNoSeparator(SplitEntries(cookie)[k])
  {
    SplitFromHasNoSeparator(cookie, "");
  }

  lemma JoinSplitEntries(cookie: string)
    ensures JoinEntries(SplitEntries(cookie)) == cookie
  {
    JoinSplitFrom(cookie, "");
  }

  /** `entries.find((row) => row.startsWith("cookieConsent="))`. */
  function FindConsentEntry(entries: seq<string>): (found: Option<string>)
    ensures found.Some? ==> StartsWith(found.value, ConsentEntryPrefix) && found.value in entries
    ensures found.None? ==> forall i :: 0 <= i < |entries| ==> !StartsWith(entries[i], ConsentEntryPrefix)
    decreases |entries|
  {
    if entries == [] then None
    else if StartsWith(entries[0], ConsentEntryPrefix) then Some(entries[0])
    else FindConsentEntry(entries[1..])
  }

  /** `find` returns the first entry that matches, not merely some matching entry. */
  lemma {:induction false} FindConsentEntryFirst(entries: seq<string>, k: nat)
    requires k < |entries| && StartsWith(entries[k], ConsentEntryPrefix)
    requires forall j :: 0 <= j < k ==> !StartsWith(entries[j], ConsentEntryPrefix)
    ensures FindConsentEntry(entries) == Some(entries[k])
    decreases k
  {
    if k > 0 {
      assert !StartsWith(entries[0], ConsentEntryPrefix);
      assert entries[1..][k - 1] == entries[k];
      FindConsentEntryFirst(entries[1..], k - 1);
    }
  }

  /** The lookup's result is truthy: some entry of the cookie string is the consent cookie. */
  predicate HasConsentEntry(cookie: string): (found: bool)
    ensures found <==> exists k :: 0 <= k < |SplitEntries(cookie)| && StartsWith(SplitEntries(cookie)[k], ConsentEntryPrefix)
  {
    FindConsentEntry(SplitEntries(cookie)).Some?
  }

  // ---------------------------------------------------------------------------
  // The lookup without the split

  lemma OccursAtShift(s: string, k: nat, i: int, t: string)
    requires k <= |s| && i >= k
    ensures OccursAt(s, i, t) <==> OccursAt(s[k..], i - k, t)
  {
    if OccursAt(s, i, t) {
      assert s[k..][i - k..i - k + |t|] == s[i..i + |t|];
    }
    if OccursAt(s[k..], i - k, t) {
      assert s[k..][i - k..i - k + |t|] == s[i..i + |t|];
    }
  }

  /** A string starting with `;` does not extend a shorter prefix into the consent prefix. */
  lemma StartsWithBeforeSemicolon(current: string, rest: string)
    requires rest != [] && rest[0] == ';'
    ensures StartsWith(current + rest, ConsentEntryPrefix) <==> StartsWith(current, ConsentEntryPrefix)
  {
    var p := ConsentEntryPrefix;
    if |current| < |p| <= |current + rest| {
      assert (current + rest)[..|p|][|current|] == ';';
      assert p[|current|] != ';';
    } else if |current| >= |p| {
      assert (current + rest)[..|p|] == current[..|p|];
    }
  }

  /** A separator followed by the prefix leaves, once the separator is dropped, an entry starting with the prefix. */
  lemma SeparatorThenPrefix(rest: string)
    requires OccursAt(rest, 0, Separator + ConsentEntryPrefix)
    ensures StartsWith(rest[|Separator|..], ConsentEntryPrefix)
  {
    var n := |ConsentEntryPrefix|;
    forall k | 0 <= k < n
      ensures rest[|Separator|..][k] == ConsentEntryPrefix[k]
    {
      assert rest[..|Separator| + n][|Separator| + k] == (Separator + ConsentEntryPrefix)[|Separator| + k];
    }
  }

  /** After a separator, an occurrence of `"; cookieConsent="` is the one at the separator or one further on. */
  lemma OccurrencesAfterSeparator(rest: string)
    requires StartsWith(rest, Separator)
    ensures (exists i :: OccursAt(rest, i, Separator + ConsentEntryPrefix)) <==>
      StartsWith(rest[|Separator|..], ConsentEntryPrefix)
      || exists j :: OccursAt(rest[|Separator|..], j, Separator + ConsentEntryPrefix)
  {
    var sp := Separator + ConsentEntryPrefix;
    var tail := rest[|Separator|..];
    if exists i :: OccursAt(rest, i, sp) {
      var i :| OccursAt(rest, i, sp);
      if i == 0 {
        SeparatorThenPrefix(rest);
      } else {
        assert i != 1 by { assert rest[1] == ' ' && sp[0] == ';' && rest[i] == sp[0]; }
        OccursAtShift(rest, 2, i, sp);
      }
    }
    if StartsWith(tail, ConsentEntryPrefix) {
      assert rest[..|sp|] == Separator + tail[..|ConsentEntryPrefix|];
      assert OccursAt(rest, 0, sp);
    }
    if exists j :: OccursAt(tail, j, sp) {
      var j :| OccursAt(tail, j, sp);
      OccursAtShift(rest, 2, j + 2, sp);
    }
  }

  lemma OccurrenceAtStartIsSeparator(rest: string)
    ensures OccursAt(rest, 0, Separator + ConsentEntryPrefix) ==> StartsWith(rest, Separator)
  {
    if OccursAt(rest, 0, Separator + ConsentEntryPrefix) {
      assert rest[..|Separator|] == rest[..|Separator + ConsentEntryPrefix|][..|Separator|];
    }
  }

  /** Where no separator starts, an occurrence of `"; cookieConsent="` lies after the first character. */
  lemma OccurrencesAfterFirst(rest: string)
    requires rest != [] && !StartsWith(rest, Separator)
    ensures (exists i :: OccursAt(rest, i, Separator + ConsentEntryPrefix)) <==>
      exists j :: OccursAt(rest[1..], j, Separator + ConsentEntryPrefix)
  {
    var sp := Separator + ConsentEntryPrefix;
    OccurrenceAtStartIsSeparator(rest);
    if exists i :: OccursAt(rest, i, sp) {
      var i :| OccursAt(rest, i, sp);
      OccursAtShift(rest, 1, i, sp);
    }
    if exists j :: OccursAt(rest[1..], j, sp) {
      var j :| OccursAt(rest[1..], j, sp);
      OccursAtShift(rest, 1, j + 1, sp);
    }
  }

  lemma {:induction false} FindInSplitFrom(rest: string, current: string)
    ensures FindConsentEntry(SplitFrom(rest, current)).Some? <==>
      StartsWith(current + rest, ConsentEntryPrefix)
      || exists i :: OccursAt(rest, i, Separator + ConsentEntryPrefix)
    decreases |rest|
  {
    if rest == [] {
      assert current + rest == current;
    } else if StartsWith(rest, Separator) {
      var tail := rest[|Separator|..];
      FindInSplitFrom(tail, "");
      assert "" + tail == tail;
      StartsWithBeforeSemicolon(current, rest);
      OccurrencesAfterSeparator(rest);
    } else {
      FindInSplitFrom(rest[1..], current + [rest[0]]);
      assert current + [rest[0]] + rest[1..] == current + rest;
      OccurrencesAfterFirst(rest);
    }
  }

  /**
   * The lookup is a prefix match on the name at the start of an entry: the
   * cookie string starts with `cookieConsent=`, or contains it right after a
   * `"; "` separator.
   */
  lemma HasConsentEntryIff(cookie: string)
    ensures HasConsentEntry(cookie) <==>
      StartsWith(cookie, ConsentEntryPrefix)
      || exists i :: OccursAt(cookie, i, Separator + ConsentEntryPrefix)
  {
    FindInSplitFrom(cookie, "");
    assert "" + cookie == cookie;
  }

  /**
   * The mount effect's decision, stated without the split: the banner shows
   * unless it is switched off or an entry of the cookie string is named `cookieConsent`.
   */
  predicate ShouldShowBanner(consentEnabledEnv: Option<string>, cookie: string): (show: bool)
    ensures show <==>
      && consentEnabledEnv != Some("false")
      && !StartsWith(cookie, ConsentEntryPrefix)
      && !exists i :: OccursAt(cookie, i, Separator + ConsentEntryPrefix)
  {
    HasConsentEntryIff(cookie);
    consentEnabledEnv != Some("false") && !HasConsentEntry(cookie)
  }

  /** Any consent entry, `declined` included, suppresses the banner, first or later in the string. */
  lemma AnyConsentEntrySuppressesBanner(env: Option<string>, before: string, value: string, after: string)
    ensures !ShouldShowBanner(env, ConsentEntryPrefix + value + after)
    ensures !ShouldShowBanner(env, before + Separator + ConsentEntryPrefix + value + after)
  {
    var c1 := ConsentEntryPrefix + value + after;
    HasConsentEntryIff(c1);
    assert c1[..|ConsentEntryPrefix|] == ConsentEntryPrefix;
    var c2 := before + Separator + ConsentEntryPrefix + value + after;
    var sp := Separator + ConsentEntryPrefix;
    HasConsentEntryIff(c2);
    assert c2[|before|..|before| + |sp|] == sp;
    assert OccursAt(c2, |before|, sp);
  }

  /** A visitor with no cookies sees the banner unless it is switched off. */
  lemma FreshVisitorSeesBanner(env: Option<string>)
    ensures ShouldShowBanner(env, "") <==> env != Some("false")
  {
    HasConsentEntryIff("");
  }

  /**
   * The name must start an entry: a single entry whose name merely contains
   * `cookieConsent` (say `mycookieConsent=accepted`) does not suppress the banner.
   */
  lemma LookalikeNameDoesNotSuppress(env: Option<string>, cookie: string)
    requires env != Some("false")
    requires forall k :: 0 <= k < |cookie| ==> cookie[k] != ';'
    requires !StartsWith(cookie, ConsentEntryPrefix)
    ensures ShouldShowBanner(env, cookie)
  {
    HasConsentEntryIff(cookie);
    var sp := Separator + ConsentEntryPrefix;
    forall i
      ensures !OccursAt(cookie, i, sp)
    {
      if 0 <= i && i + |sp| <= |cookie| {
        assert cookie[i..i + |sp|][0] == cookie[i];
      }
    }
  }

  // ---------------------------------------------------------------------------
  // The component's state

  class CookieConsentBanner {
    var showBanner: bool

    /** `useState(false)`. */
    constructor ()
      ensures !showBanner
    {
      showBanner := false;
    }

    /** The mount effect: show the banner when enabled and no consent entry exists yet. */
    method Mount(consentEnabledEnv: Option<string>, documentCookie: string)
      modifies this
      ensures showBanner == (old(showBanner) || ShouldShowBanner(consentEnabledEnv, documentCookie))
      ensures consentEnabledEnv == Some("false") ==> showBanner == old(showBanner)
    {
      var isEnabled := consentEnabledEnv != Some("false");
      if isEnabled {
        var hasConsent := FindConsentEntry(SplitEntries(documentCookie));
        if hasConsent.None? {
          showBanner := true;
        }
      }
    }

    /** `handleAccept`: hides the banner and touches nothing else. */
    method HandleAccept()
      modifies this
      ensures !showBanner
    {
      showBanner := false;
    }

    /** `handleDecline`: hides the banner and touches nothing else. */
    method HandleDecline()
      modifies this
      ensures !showBanner
    {
      showBanner := false;
    }
  }

  /** With the banner switched off by its flag, a freshly mounted banner is never shown. */
  method MountDisabled(documentCookie: string) returns (banner: CookieConsentBanner)
    ensures !banner.showBanner
  {
    banner := new CookieConsentBanner();
    banner.Mount(Some("false"), documentCookie);
  }
}
