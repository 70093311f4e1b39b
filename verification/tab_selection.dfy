/** Which browser tab the relay attaches to.  The live stream (`generate_frames`)
    and the single-screenshot endpoint (`get_screenshot`) each run a
    three-tier first-match search over the DevTools tab list, with different
    keywords and a different notion of a "blank" page. */
module TabSelection {
  import opened Wrappers
  import opened Text
  import opened Seqs

  /** A DevTools `/json/list` entry; a missing field reads as "". */
  datatype Tab = Tab(id: string, url: string, title: string, wsUrl: string)

  /** The outcome of `GET /json/list`: the request raised, answered with a
      non-2xx status, or returned the tab list. */
  datatype TabProbe = ProbeRaised(reason: string) | ProbeNotOk | ProbeOk(tabs: seq<Tab>)

  /** Some keyword occurs in the text. */
  predicate MentionsAny(text: string, keywords: seq<string>) {
    exists k | 0 <= k < |keywords| :: Contains(text, keywords[k])
  }

  // ------------------------------------------------------------ live stream

  const StreamKeywords: seq<string> := ["job", "application", "career", "apply", "ashby"]

  predicate StreamPreferred(t: Tab) { MentionsAny(ToLower(t.url), StreamKeywords) }

  predicate StreamFallback(t: Tab) {
    t.url != "" && !StartsWith(t.url, "chrome://") && t.url != "about:blank"
  }

  /** The tab the live stream attaches to: the first job-like tab, else the
      first real page, else the first tab; nothing for an empty list. */
  function StreamTabIndex(tabs: seq<Tab>): (r: Option<nat>)
    ensures r.Some? <==> |tabs| > 0
    ensures r.Some? ==> r.value < |tabs|
    ensures (exists i :: 0 <= i < |tabs| && StreamPreferred(tabs[i])) ==>
              r.Some? && StreamPreferred(tabs[r.value]) &&
              forall j :: 0 <= j < r.value ==> !StreamPreferred(tabs[j])
    ensures (forall i :: 0 <= i < |tabs| ==> !StreamPreferred(tabs[i])) &&
            (exists i :: 0 <= i < |tabs| && StreamFallback(tabs[i])) ==>
              r.Some? && StreamFallback(tabs[r.value]) &&
              forall j :: 0 <= j < r.value ==> !StreamFallback(tabs[j])
    ensures |tabs| > 0 &&
            (forall i :: 0 <= i < |tabs| ==> !StreamPreferred(tabs[i]) && !StreamFallback(tabs[i])) ==>
              r == Some(0)
  {
    match FirstIndex(tabs, StreamPreferred)
    case Some(i) => Some(i)
    case None =>
      match FirstIndex(tabs, StreamFallback)
      case Some(i) => Some(i)
      case None => if |tabs| > 0 then Some(0) else None
  }

  // ------------------------------------------------------------ single screenshot

  const ScreenshotKeywords: seq<string> := ["job", "application", "ashby"]

  predicate ScreenshotPreferred(t: Tab) {
    t.url != "" && MentionsAny(ToLower(t.url), ScreenshotKeywords)
  }

  predicate ScreenshotFallback(t: Tab) {
    t.url != "" && !StartsWith(t.url, "about:") && !StartsWith(t.url, "chrome://")
  }

  /** The tab `get_screenshot` captures, by the same three tiers with its own
      keywords and with every `about:` page skipped in the second tier. */
  function ScreenshotTabIndex(tabs: seq<Tab>): (r: Option<nat>)
    ensures r.Some? <==> |tabs| > 0
    ensures r.Some? ==> r.value < |tabs|
    ensures (exists i :: 0 <= i < |tabs| && ScreenshotPreferred(tabs[i])) ==>
              r.Some? && ScreenshotPreferred(tabs[r.value]) &&
              forall j :: 0 <= j < r.value ==> !ScreenshotPreferred(tabs[j])
    ensures (forall i :: 0 <= i < |tabs| ==> !ScreenshotPreferred(tabs[i])) &&
            (exists i :: 0 <= i < |tabs| && ScreenshotFallback(tabs[i])) ==>
              r.Some? && ScreenshotFallback(tabs[r.value]) &&
              forall j :: 0 <= j < r.value ==> !ScreenshotFallback(tabs[j])
    ensures |tabs| > 0 &&
            (forall i :: 0 <= i < |tabs| ==> !ScreenshotPreferred(tabs[i]) && !ScreenshotFallback(tabs[i])) ==>
              r == Some(0)
  {
    match FirstIndex(tabs, ScreenshotPreferred)
    case Some(i) => Some(i)
    case None =>
      match FirstIndex(tabs, ScreenshotFallback)
      case Some(i) => Some(i)
      case None => if |tabs| > 0 then Some(0) else None
  }

  /** Every screenshot keyword is a stream keyword, so a tab the screenshot
      rule prefers is one the stream rule prefers as well. */
  lemma ScreenshotPreferredIsStreamPreferred(t: Tab)
    ensures ScreenshotPreferred(t) ==> StreamPreferred(t)
  {
    if ScreenshotPreferred(t) {
      var k :| 0 <= k < |ScreenshotKeywords| && Contains(ToLower(t.url), ScreenshotKeywords[k]);
      var k' := if k == 0 then 0 else if k == 1 then 1 else 4;
      assert StreamKeywords[k'] == ScreenshotKeywords[k];
    }
  }

  /** The two rules part ways on an `about:` page other than `about:blank`:
      the stream attaches to it, the screenshot skips it for a later real
      page. */
  lemma RulesDisagreeOnAboutPages(tabs: seq<Tab>)
    requires |tabs| == 2
    requires !StreamPreferred(tabs[0]) && !StreamPreferred(tabs[1])
    requires StartsWith(tabs[0].url, "about:") && tabs[0].url != "about:blank"
    requires ScreenshotFallback(tabs[1])
    ensures StreamTabIndex(tabs) == Some(0)
    ensures ScreenshotTabIndex(tabs) == Some(1)
  {
    ScreenshotPreferredIsStreamPreferred(tabs[0]);
    ScreenshotPreferredIsStreamPreferred(tabs[1]);
    var u := tabs[0].url;
    assert !StartsWith(u, "chrome://") by {
      assert u[..6][0] == 'a';
      if 9 <= |u| {
        assert u[..9][0] == u[..6][0];
      }
    }
    assert StreamFallback(tabs[0]);
    assert !ScreenshotFallback(tabs[0]);
    assert forall i :: 0 <= i < |tabs| ==> !StreamPreferred(tabs[i]);
    assert forall i :: 0 <= i < |tabs| ==> !ScreenshotPreferred(tabs[i]);
    var r := ScreenshotTabIndex(tabs);
    assert r.Some? && ScreenshotFallback(tabs[r.value]);
  }

  // ------------------------------------------------------------ target port

  /** The DevTools port every browser instance gets unless another is chosen. */
  const FallbackPort: int := 9222
}
