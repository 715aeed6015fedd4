/**
 * The browser-environment panel of getSystemInfo: the operating system and
 * the browser are guessed from the user-agent string by ordered substring
 * tests, and the raw string is cut to 50 characters for display. The
 * user-agent string is a parameter (the source reads navigator.userAgent).
 */
module SystemInfo {

  /** `sub` occurs in `s` starting at index j. */
  predicate OccursAt(s: string, sub: string, j: int) {
    0 <= j && j + |sub| <= |s| && s[j..j + |sub|] == sub
  }

  /**
   * String.prototype.indexOf from position `from`: the first j >= from at
   * which `sub` occurs, or -1 when there is none.
   */
  function IndexFrom(s: string, sub: string, from: nat): (r: int)
    decreases |s| - from
    ensures r == -1 || (from <= r && OccursAt(s, sub, r))
    ensures forall j :: from <= j && (r == -1 || j < r) ==> !OccursAt(s, sub, j)
  {
    if from + |sub| > |s| then -1
    else if s[from..from + |sub|] == sub then from
    else IndexFrom(s, sub, from + 1)
  }

  /** s.indexOf(sub): the first index where `sub` occurs, or -1 when it never does. */
  function IndexOf(s: string, sub: string): (r: int)
    ensures r == -1 || OccursAt(s, sub, r)
    ensures forall j :: 0 <= j && (r == -1 || j < r) ==> !OccursAt(s, sub, j)
  {
    IndexFrom(s, sub, 0)
  }

  /** s.indexOf(sub) !== -1: holds exactly when `sub` occurs somewhere in `s`. */
  predicate Contains(s: string, sub: string)
    ensures Contains(s, sub) <==> exists j :: OccursAt(s, sub, j)
  {
    IndexOf(s, sub) != -1
  }

  /** Occurrence survives embedding in a longer string. */
  lemma ContainsInfix(pre: string, sub: string, post: string)
    ensures Contains(pre + sub + post, sub)
  {
    var s := pre + sub + post;
    assert s[|pre|..|pre| + |sub|] == sub;
    assert OccursAt(s, sub, |pre|);
  }

  /** The operating-system chain of getSystemInfo: the first test that succeeds wins. */
  function DetectOs(ua: string): (os: string)
    ensures os in {"Windows", "macOS", "Linux", "Android", "iOS", "Unknown OS"}
  {
    if Contains(ua, "Win") then "Windows"
    else if Contains(ua, "Mac") then "macOS"
    else if Contains(ua, "Linux") then "Linux"
    else if Contains(ua, "Android") then "Android"
    else if Contains(ua, "iOS") then "iOS"
    else "Unknown OS"
  }

  /** The browser chain of getSystemInfo, with its exclusions. */
  function DetectBrowser(ua: string): (browser: string)
    ensures browser in {"Chrome", "Safari", "Firefox", "Edge", "Unknown Browser"}
  {
    if Contains(ua, "Chrome") && !Contains(ua, "Edg") then "Chrome"
    else if Contains(ua, "Safari") && !Contains(ua, "Chrome") then "Safari"
    else if Contains(ua, "Firefox") then "Firefox"
    else if Contains(ua, "Edg") then "Edge"
    else "Unknown Browser"
  }

  /**
   * A detection rule: the rule matches when `need` occurs and, if
   * `exclude` is non-empty, `exclude` does not occur.
   */
  datatype Rule = Rule(need: string, exclude: string, outcome: string)

  predicate Matches(r: Rule, ua: string) {
    Contains(ua, r.need) && (r.exclude == "" || !Contains(ua, r.exclude))
  }

  /** The outcome of the first matching rule, or `fallback` when none matches. */
  function FirstMatch(rules: seq<Rule>, ua: string, fallback: string): (outcome: string)
    ensures forall k :: (0 <= k < |rules| && Matches(rules[k], ua) &&
      (forall m :: 0 <= m < k ==> !Matches(rules[m], ua))) ==> outcome == rules[k].outcome
    ensures (forall k :: 0 <= k < |rules| ==> !Matches(rules[k], ua)) ==> outcome == fallback
  {
    if rules == [] then fallback
    else if Matches(rules[0], ua) then rules[0].outcome
    else FirstMatch(rules[1..], ua, fallback)
  }

  /** The operating-system rules in the order the source tests them. */
  const OsRules: seq<Rule> := [
    Rule("Win", "", "Windows"),
    Rule("Mac", "", "macOS"),
    Rule("Linux", "", "Linux"),
    Rule("Android", "", "Android"),
    Rule("iOS", "", "iOS")]

  /** The browser rules in the order the source tests them. */
  const BrowserRules: seq<Rule> := [
    Rule("Chrome", "Edg", "Chrome"),
    Rule("Safari", "Chrome", "Safari"),
    Rule("Firefox", "", "Firefox"),
    Rule("Edg", "", "Edge")]

  /** OS detection is the first match of its rule table, in the order Win, Mac, Linux, Android, iOS. */
  lemma DetectOsIsFirstMatch(ua: string)
    ensures DetectOs(ua) == FirstMatch(OsRules, ua, "Unknown OS")
  {
    var fb := "Unknown OS";
    assert FirstMatch(OsRules[5..], ua, fb) == fb;
    assert FirstMatch(OsRules[4..], ua, fb) == if Contains(ua, "iOS") then "iOS" else fb;
    assert FirstMatch(OsRules[3..], ua, fb) ==
      if Contains(ua, "Android") then "Android" else FirstMatch(OsRules[4..], ua, fb);
    assert FirstMatch(OsRules[2..], ua, fb) ==
      if Contains(ua, "Linux") then "Linux" else FirstMatch(OsRules[3..], ua, fb);
    assert FirstMatch(OsRules[1..], ua, fb) ==
      if Contains(ua, "Mac") then "macOS" else FirstMatch(OsRules[2..], ua, fb);
    assert FirstMatch(OsRules, ua, fb) ==
      if Contains(ua, "Win") then "Windows" else FirstMatch(OsRules[1..], ua, fb);
  }

  /** The last two browser rules: Firefox, then Edg, then the fallback. */
  lemma BrowserTailIsFirstMatch(ua: string)
    ensures FirstMatch(BrowserRules[2..], ua, "Unknown Browser") ==
      if Contains(ua, "Firefox") then "Firefox"
      else if Contains(ua, "Edg") then "Edge"
      else "Unknown Browser"
  {
    var fb := "Unknown Browser";
    assert FirstMatch(BrowserRules[4..], ua, fb) == fb;
    assert FirstMatch(BrowserRules[3..], ua, fb) == if Contains(ua, "Edg") then "Edge" else fb;
  }

  /** Browser detection is the first match of its rule table, exclusions included. */
  lemma DetectBrowserIsFirstMatch(ua: string)
    ensures DetectBrowser(ua) == FirstMatch(BrowserRules, ua, "Unknown Browser")
  {
    var fb := "Unknown Browser";
    BrowserTailIsFirstMatch(ua);
    assert FirstMatch(BrowserRules[1..], ua, fb) ==
      if Contains(ua, "Safari") && !Contains(ua, "Chrome") then "Safari"
      else FirstMatch(BrowserRules[2..], ua, fb);
    assert FirstMatch(BrowserRules, ua, fb) ==
      if Contains(ua, "Chrome") && !Contains(ua, "Edg") then "Chrome"
      else FirstMatch(BrowserRules[1..], ua, fb);
  }

  /**
   * Each OS label is returned exactly when its test succeeds and every
   * earlier test fails; in particular a string naming both Windows and
   * Linux is Windows, and one naming Linux and Android, but neither
   * Windows nor Mac, is Linux.
   */
  lemma OsFirstMatchWins(ua: string)
    ensures DetectOs(ua) == "Windows" <==> Contains(ua, "Win")
    ensures DetectOs(ua) == "macOS" <==> !Contains(ua, "Win") && Contains(ua, "Mac")
    ensures DetectOs(ua) == "Linux" <==>
      !Contains(ua, "Win") && !Contains(ua, "Mac") && Contains(ua, "Linux")
    ensures DetectOs(ua) == "Android" <==>
      !Contains(ua, "Win") && !Contains(ua, "Mac") && !Contains(ua, "Linux") && Contains(ua, "Android")
    ensures DetectOs(ua) == "iOS" <==>
      !Contains(ua, "Win") && !Contains(ua, "Mac") && !Contains(ua, "Linux") &&
      !Contains(ua, "Android") && Contains(ua, "iOS")
    ensures DetectOs(ua) == "Unknown OS" <==>
      !Contains(ua, "Win") && !Contains(ua, "Mac") && !Contains(ua, "Linux") &&
      !Contains(ua, "Android") && !Contains(ua, "iOS")
  {
  }

  /** A string holding both "Win" and "Linux" is reported as Windows. */
  lemma WindowsBeatsLinux(pre: string, mid: string, post: string)
    ensures DetectOs(pre + "Win" + mid + "Linux" + post) == "Windows"
  {
    var rest := mid + "Linux" + post;
    var s := pre + "Win" + mid + "Linux" + post;
    assert s == pre + "Win" + rest;
    ContainsInfix(pre, "Win", rest);
  }

  /**
   * Android browsers put "Linux" in their user-agent string, so the Android
   * test is reached only for strings naming none of Win, Mac and Linux: a
   * string holding "Linux" and "Android" but neither "Win" nor "Mac" is
   * reported as Linux.
   */
  lemma AndroidIsLinux(pre: string, mid: string, post: string)
    requires !Contains(pre + "Linux" + mid + "Android" + post, "Win")
    requires !Contains(pre + "Linux" + mid + "Android" + post, "Mac")
    ensures DetectOs(pre + "Linux" + mid + "Android" + post) == "Linux"
  {
    var rest := mid + "Android" + post;
    assert pre + "Linux" + mid + "Android" + post == pre + "Linux" + rest;
    ContainsInfix(pre, "Linux", rest);
  }

  /**
   * Likewise iPhone and iPad strings say "like Mac OS X", so a string
   * holding "Mac" and "iOS" but no "Win" is reported as macOS.
   */
  lemma IosIsMacOs(pre: string, mid: string, post: string)
    requires !Contains(pre + "Mac" + mid + "iOS" + post, "Win")
    ensures DetectOs(pre + "Mac" + mid + "iOS" + post) == "macOS"
  {
    var rest := mid + "iOS" + post;
    assert pre + "Mac" + mid + "iOS" + post == pre + "Mac" + rest;
    ContainsInfix(pre, "Mac", rest);
  }

  /**
   * The browser outcomes: Chrome needs "Chrome" without "Edg"; Safari needs
   * "Safari" without "Chrome"; Firefox and Edge follow in that order.
   */
  lemma BrowserRulesHold(ua: string)
    ensures DetectBrowser(ua) == "Chrome" <==> Contains(ua, "Chrome") && !Contains(ua, "Edg")
    ensures DetectBrowser(ua) == "Safari" <==> Contains(ua, "Safari") && !Contains(ua, "Chrome")
    ensures DetectBrowser(ua) == "Firefox" <==>
      !(Contains(ua, "Chrome") && !Contains(ua, "Edg")) &&
      !(Contains(ua, "Safari") && !Contains(ua, "Chrome")) && Contains(ua, "Firefox")
    ensures DetectBrowser(ua) == "Edge" <==>
      !(Contains(ua, "Chrome") && !Contains(ua, "Edg")) &&
      !(Contains(ua, "Safari") && !Contains(ua, "Chrome")) &&
      !Contains(ua, "Firefox") && Contains(ua, "Edg")
  {
  }

  /** An Edge string carries "Chrome" and "Edg" and so is reported as Edge unless it says Firefox. */
  lemma ChromiumEdgeIsEdge(ua: string)
    requires Contains(ua, "Chrome") && Contains(ua, "Edg") && !Contains(ua, "Firefox")
    ensures DetectBrowser(ua) == "Edge"
  {
  }

  /** The display limit on the raw user-agent string. */
  const UaDisplayLength: nat := 50

  /**
   * ua.length > 50 ? ua.substring(0, 50) + '...' : ua. A short string is
   * shown unchanged; a long one keeps its first 50 characters and gains
   * an ellipsis, 53 characters in all.
   */
  function TruncateUa(ua: string): (shown: string)
    ensures |ua| <= UaDisplayLength ==> shown == ua
    ensures |ua| > UaDisplayLength ==>
      |shown| == UaDisplayLength + 3 &&
      shown[..UaDisplayLength] == ua[..UaDisplayLength] &&
      shown[UaDisplayLength..] == "..."
    ensures |shown| <= UaDisplayLength + 3
  {
    if |ua| > UaDisplayLength then ua[..UaDisplayLength] + "..." else ua
  }

  /** The three user-agent derived fields getSystemInfo shows. */
  datatype Info = Info(os: string, browser: string, userAgent: string)

  function GetSystemInfo(ua: string): (info: Info)
    ensures info.os in {"Windows", "macOS", "Linux", "Android", "iOS", "Unknown OS"}
    ensures info.browser in {"Chrome", "Safari", "Firefox", "Edge", "Unknown Browser"}
    ensures |info.userAgent| <= UaDisplayLength + 3
  {
    Info(DetectOs(ua), DetectBrowser(ua), TruncateUa(ua))
  }
}
