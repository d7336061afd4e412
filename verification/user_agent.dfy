/**
 Classification of the user-agent string: browser name, browser version and
 device type (script.js `getBrowserName`, `getBrowserVersion`,
 `getDeviceType`).
 */
module UserAgent {
  import opened Wrappers
  import opened Text

  /** Some string of `tokens` occurs in `s`: a `|`-alternation of literals. */
  predicate AnyToken(s: string, tokens: seq<string>)
  {
    |tokens| > 0 && (Contains(s, tokens[0]) || AnyToken(s, tokens[1..]))
  }

  /** Any single token occurring is enough for the alternation to match. */
  lemma {:induction false} AnyTokenHolds(s: string, tokens: seq<string>, k: nat)
    requires k < |tokens| && Contains(s, tokens[k])
    ensures AnyToken(s, tokens)
    decreases k
  {
    if k > 0 {
      AnyTokenHolds(s, tokens[1..], k - 1);
    }
  }

  // ---------------------------------------------------------------------------
  // Browser name
  // ---------------------------------------------------------------------------

  /** The seven possible outcomes of browser identification. */
  datatype Browser = Chrome | Safari | Firefox | InternetExplorer | Edge | Opera | Unknown
  {
    /** The string the page displays. */
    function Name(): string
    {
      match this
      case Chrome => "Chrome"
      case Safari => "Safari"
      case Firefox => "Firefox"
      case InternetExplorer => "Internet Explorer"
      case Edge => "Edge"
      case Opera => "Opera"
      case Unknown => "Unknown"
    }

    /** Position in the precedence order: a browser is only reported when no
        browser of smaller rank matches. */
    function Rank(): nat
    {
      match this
      case Chrome => 0
      case Safari => 1
      case Firefox => 2
      case InternetExplorer => 3
      case Edge => 4
      case Opera => 5
      case Unknown => 6
    }
  }

  /** The case-sensitive tokens of `b` ("MSIE" or "Trident" for Internet
      Explorer) occur in `ua`. `Unknown` has no token and never matches. */
  predicate Identifies(ua: string, b: Browser)
  {
    match b
    case Chrome => Contains(ua, "Chrome")
    case Safari => Contains(ua, "Safari")
    case Firefox => Contains(ua, "Firefox")
    case InternetExplorer => Contains(ua, "MSIE") || Contains(ua, "Trident")
    case Edge => Contains(ua, "Edge")
    case Opera => Contains(ua, "Opera")
    case Unknown => false
  }

  /** The browser name as `getBrowserName` computes it: an if/else-if chain of
      `indexOf` tests. An agent containing "Chrome" is Chrome whatever else it
      contains; any other name is only reported when its own token occurs. */
  function BrowserName(ua: string): (r: Browser)
    ensures Contains(ua, "Chrome") ==> r == Chrome
    ensures r != Unknown ==> Identifies(ua, r)
  {
    if Contains(ua, "Chrome") then Chrome
    else if Contains(ua, "Safari") then Safari
    else if Contains(ua, "Firefox") then Firefox
    else if Contains(ua, "MSIE") || Contains(ua, "Trident") then InternetExplorer
    else if Contains(ua, "Edge") then Edge
    else if Contains(ua, "Opera") then Opera
    else Unknown
  }

  /** First match wins: the reported browser is identified by the agent, no
      browser earlier in the precedence order is, and the result is Unknown
      exactly when no browser's token occurs. */
  lemma BrowserNamePrecedence(ua: string)
    ensures var r := BrowserName(ua);
      && (r != Unknown ==> Identifies(ua, r))
      && (forall b: Browser :: b.Rank() < r.Rank() ==> !Identifies(ua, b))
      && (r == Unknown <==> forall b: Browser :: !Identifies(ua, b))
  {
    var r := BrowserName(ua);
    forall b: Browser | b.Rank() < r.Rank() || r == Unknown
      ensures !Identifies(ua, b)
    {
      match b
      case Chrome =>
      case Safari =>
      case Firefox =>
      case InternetExplorer =>
      case Edge =>
      case Opera =>
      case Unknown =>
    }
  }

  /** The precedence order as a table, most preferred first. */
  const Precedence: seq<Browser> := [Chrome, Safari, Firefox, InternetExplorer, Edge, Opera]

  /** Reference definition of first-match-wins over an ordered table. */
  function FirstMatch(table: seq<Browser>, ua: string): (r: Browser)
    ensures r == Unknown || r in table
  {
    if |table| == 0 then Unknown
    else if Identifies(ua, table[0]) then table[0]
    else FirstMatch(table[1..], ua)
  }

  /** The if/else chain of `getBrowserName` is exactly a first-match scan of the
      precedence table. */
  lemma BrowserNameIsFirstMatch(ua: string)
    ensures BrowserName(ua) == FirstMatch(Precedence, ua)
  {
    var l1: seq<Browser> := [Safari, Firefox, InternetExplorer, Edge, Opera];
    var l2: seq<Browser> := [Firefox, InternetExplorer, Edge, Opera];
    var l3: seq<Browser> := [InternetExplorer, Edge, Opera];
    var l4: seq<Browser> := [Edge, Opera];
    var l5: seq<Browser> := [Opera];
    assert Precedence[1..] == l1 && l1[1..] == l2 && l2[1..] == l3;
    assert l3[1..] == l4 && l4[1..] == l5 && l5[1..] == [];
    assert FirstMatch(Precedence, ua) == if Identifies(ua, Chrome) then Chrome else FirstMatch(l1, ua);
    assert FirstMatch(l1, ua) == if Identifies(ua, Safari) then Safari else FirstMatch(l2, ua);
    assert FirstMatch(l2, ua) == if Identifies(ua, Firefox) then Firefox else FirstMatch(l3, ua);
    assert FirstMatch(l3, ua) == if Identifies(ua, InternetExplorer) then InternetExplorer else FirstMatch(l4, ua);
    assert FirstMatch(l4, ua) == if Identifies(ua, Edge) then Edge else FirstMatch(l5, ua);
    assert FirstMatch(l5, ua) == if Identifies(ua, Opera) then Opera else FirstMatch([], ua);
  }

  // ---------------------------------------------------------------------------
  // Browser version: `ua.match(/Prefix\/(\d+\.\d+)/)[1]`
  // ---------------------------------------------------------------------------

  predicate IsDigit(c: char)
  {
    '0' <= c <= '9'
  }

  predicate AllDigits(s: string)
  {
    forall i :: 0 <= i < |s| ==> IsDigit(s[i])
  }

  /** Shape of a version capture: one or more digits, a dot, one or more digits. */
  predicate IsVersion(v: string)
  {
    exists k :: 1 <= k < |v| - 1 && v[k] == '.' && AllDigits(v[..k]) && AllDigits(v[k + 1..])
  }

  /** Length of the longest run of digits in `s` starting at `k` (what a greedy `\d+` consumes). */
  function DigitRun(s: string, k: nat): (n: nat)
    requires k <= |s|
    ensures k + n <= |s|
    ensures AllDigits(s[k..k + n])
    ensures k + n == |s| || !IsDigit(s[k + n])
    decreases |s| - k
  {
    if k < |s| && IsDigit(s[k]) then
      var n := DigitRun(s, k + 1);
      assert s[k..k + 1 + n] == [s[k]] + s[k + 1..k + 1 + n];
      1 + n
    else 0
  }

  /** `\d+\.\d+` matched at index `k`, with its capture. A greedy first `\d+`
      cannot give back digits and still meet a dot, so the match exists
      exactly when the maximal run is non-empty and is followed by a dot and
      at least one more digit. The capture is followed by a non-digit or the
      end of the string (the second `\d+` is greedy too). */
  function NumberAt(s: string, k: nat): (r: Option<string>)
    requires k <= |s|
    ensures r.Some? ==> IsVersion(r.value) && StartsAt(s, k, r.value)
    ensures r.Some? ==> k + |r.value| == |s| || !IsDigit(s[k + |r.value|])
  {
    var d1 := DigitRun(s, k);
    if d1 == 0 || k + d1 == |s| || s[k + d1] != '.' then None
    else
      var d2 := DigitRun(s, k + d1 + 1);
      if d2 == 0 then None
      else
        var v := s[k..k + d1 + 1 + d2];
        assert v[..d1] == s[k..k + d1];
        assert v[d1 + 1..] == s[k + d1 + 1..k + d1 + 1 + d2];
        Some(v)
  }

  /** A greedy `\d+` consumes at least every digit of a run of digits. */
  lemma {:induction false} DigitRunCovers(s: string, k: nat, b: nat)
    requires k <= b <= |s| && AllDigits(s[k..b])
    ensures k + DigitRun(s, k) >= b
    decreases b - k
  {
    if k < b {
      assert IsDigit(s[k..b][0]);
      assert s[k + 1..b] == s[k..b][1..];
      DigitRunCovers(s, k + 1, b);
    }
  }

  /** `\d+\.\d+` is found at `k` whenever digits, a dot and digits occur
      there, and the capture reaches at least to the end of those digits. */
  lemma NumberAtComplete(s: string, k: nat, a: nat, b: nat)
    requires k < a && a + 1 < b <= |s|
    requires AllDigits(s[k..a]) && s[a] == '.' && AllDigits(s[a + 1..b])
    ensures NumberAt(s, k).Some?
    ensures |NumberAt(s, k).value| >= b - k
  {
    DigitRunCovers(s, k, a);
    var d1 := DigitRun(s, k);
    assert k + d1 == a;
    DigitRunCovers(s, a + 1, b);
  }

  /** The alternative `p` followed by `\d+\.\d+` matches at index `i`. */
  predicate AltMatches(s: string, i: nat, p: string)
  {
    StartsAt(s, i, p) && NumberAt(s, i + |p|).Some?
  }

  /** The regular expression `(?:p0|p1|...)(\d+\.\d+)` tried at index `i`:
      alternatives in order, capture of the first that matches. It matches
      exactly when one of the alternatives does. */
  function CaptureAt(s: string, i: nat, prefixes: seq<string>): (r: Option<string>)
    ensures r.Some? ==> IsVersion(r.value)
    ensures r.Some? <==> exists k :: 0 <= k < |prefixes| && AltMatches(s, i, prefixes[k])
  {
    if |prefixes| == 0 then None
    else if AltMatches(s, i, prefixes[0]) then NumberAt(s, i + |prefixes[0]|)
    else
      var r := CaptureAt(s, i, prefixes[1..]);
      assert forall k :: 1 <= k < |prefixes| ==> prefixes[k] == prefixes[1..][k - 1];
      r
  }

  /** The capture of the single alternative `p` followed by `\d+\.\d+` at index `i`. */
  function AltCapture(s: string, i: nat, p: string): Option<string>
  {
    if AltMatches(s, i, p) then NumberAt(s, i + |p|) else None
  }

  /** Alternative `k` is the first one that matches at index `i`. */
  predicate FirstAlternative(s: string, i: nat, prefixes: seq<string>, k: nat)
  {
    k < |prefixes| && AltMatches(s, i, prefixes[k])
    && forall j :: 0 <= j < k ==> !AltMatches(s, i, prefixes[j])
  }

  /** The capture of the alternation is the number after the first
      alternative that matches: later alternatives are tried only when the
      earlier ones fail. */
  lemma {:induction false} CaptureAtFirstAlternative(s: string, i: nat, prefixes: seq<string>, k: nat)
    requires FirstAlternative(s, i, prefixes, k)
    ensures CaptureAt(s, i, prefixes) == AltCapture(s, i, prefixes[k])
    decreases k
  {
    if k == 0 {
      CaptureAtTakes(s, i, prefixes);
    } else {
      FirstAlternativeOfTail(s, i, prefixes, k);
      CaptureAtSkips(s, i, prefixes);
      CaptureAtFirstAlternative(s, i, prefixes[1..], k - 1);
      assert prefixes[1..][k - 1] == prefixes[k];
    }
  }

  /** An alternative that matches is taken. */
  lemma CaptureAtTakes(s: string, i: nat, prefixes: seq<string>)
    requires |prefixes| > 0 && AltMatches(s, i, prefixes[0])
    ensures CaptureAt(s, i, prefixes) == AltCapture(s, i, prefixes[0])
  {
  }

  /** An alternative that does not match is passed over. */
  lemma CaptureAtSkips(s: string, i: nat, prefixes: seq<string>)
    requires |prefixes| > 0 && !AltMatches(s, i, prefixes[0])
    ensures CaptureAt(s, i, prefixes) == CaptureAt(s, i, prefixes[1..])
  {
  }

  lemma FirstAlternativeOfTail(s: string, i: nat, prefixes: seq<string>, k: nat)
    requires FirstAlternative(s, i, prefixes, k) && k > 0
    ensures !AltMatches(s, i, prefixes[0])
    ensures FirstAlternative(s, i, prefixes[1..], k - 1)
  {
    var tail := prefixes[1..];
    assert tail[k - 1] == prefixes[k];
    forall j | 0 <= j < k - 1
      ensures !AltMatches(s, i, tail[j])
    {
      assert tail[j] == prefixes[j + 1];
    }
  }

  /** The leftmost index at or after `i` where the pattern matches, as
      `String.prototype.match` (without the `g` flag) finds it. */
  function LeftmostMatch(s: string, prefixes: seq<string>, i: nat): (r: Option<nat>)
    requires i <= |s|
    ensures r.Some? ==> i <= r.value <= |s| && CaptureAt(s, r.value, prefixes).Some?
    ensures r.Some? ==> forall j :: i <= j < r.value ==> CaptureAt(s, j, prefixes).None?
    ensures r.None? ==> forall j :: i <= j <= |s| ==> CaptureAt(s, j, prefixes).None?
    decreases |s| - i
  {
    if CaptureAt(s, i, prefixes).Some? then Some(i)
    else if i == |s| then None
    else LeftmostMatch(s, prefixes, i + 1)
  }

  /** The pattern matches nowhere in `s`. */
  predicate NoMatch(s: string, prefixes: seq<string>)
  {
    forall j :: 0 <= j <= |s| ==> CaptureAt(s, j, prefixes).None?
  }

  /** `s.match(re)?.[1]` for `re = (?:prefixes)(\d+\.\d+)`: `None` where the
      source's `match` returns null. */
  function MatchVersion(s: string, prefixes: seq<string>): (r: Option<string>)
    ensures r.Some? ==> IsVersion(r.value)
    ensures r.None? <==> NoMatch(s, prefixes)
    ensures r.Some? ==>
      exists p :: 0 <= p <= |s| && CaptureAt(s, p, prefixes) == r
        && forall j :: 0 <= j < p ==> CaptureAt(s, j, prefixes).None?
  {
    var m := LeftmostMatch(s, prefixes, 0);
    if m.None? then None
    else
      var r := CaptureAt(s, m.value, prefixes);
      assert !NoMatch(s, prefixes) by {
        assert 0 <= m.value <= |s| && r.Some?;
      }
      r
  }

  /** The literal text before the version in each browser's pattern. */
  function VersionPrefixes(b: Browser): seq<string>
  {
    match b
    case Chrome => ["Chrome/"]
    case Safari => ["Version/"]
    case Firefox => ["Firefox/"]
    case InternetExplorer => ["MSIE ", "rv:"]
    case Edge => ["Edge/"]
    case Opera => ["Opera/"]
    case Unknown => []
  }

  /** The source reads capture group 1 of a null match, and throws, whenever
      the browser is identified but its version pattern is absent. The
      version is defined only when that does not happen. */
  predicate VersionDefined(ua: string)
  {
    var b := BrowserName(ua);
    b == Unknown || MatchVersion(ua, VersionPrefixes(b)).Some?
  }

  /** The browser version: "Unknown" exactly when the browser is unknown,
      otherwise the capture at the leftmost index where the browser's
      `prefix digits.digits` pattern matches. */
  function BrowserVersion(ua: string): (r: string)
    requires VersionDefined(ua)
    ensures r == "Unknown" <==> BrowserName(ua) == Unknown
    ensures BrowserName(ua) != Unknown ==> IsVersion(r)
    ensures BrowserName(ua) != Unknown ==>
      exists p :: 0 <= p <= |ua| && CaptureAt(ua, p, VersionPrefixes(BrowserName(ua))) == Some(r)
        && forall j :: 0 <= j < p ==> CaptureAt(ua, j, VersionPrefixes(BrowserName(ua))).None?
  {
    var b := BrowserName(ua);
    if b == Unknown then "Unknown"
    else
      var r := MatchVersion(ua, VersionPrefixes(b)).value;
      assert r != "Unknown" by {
        var k :| 1 <= k < |r| - 1 && r[k] == '.' && AllDigits(r[..k]) && AllDigits(r[k + 1..]);
        assert IsDigit(r[..k][0]);
      }
      r
  }

  /** An agent that names Chrome without a `Chrome/x.y` version makes the
      source's version lookup throw: the precondition is a real restriction. */
  lemma VersionUndefinedExample()
    ensures BrowserName("Chrome") == Chrome
    ensures !VersionDefined("Chrome")
  {
    assert StartsAt("Chrome", 0, "Chrome");
    var s := "Chrome";
    forall j | 0 <= j <= |s| ensures CaptureAt(s, j, ["Chrome/"]).None? {
      assert !StartsAt(s, j, "Chrome/");
    }
  }

  /** The part the two iOS agents share before the browser token. */
  const IosHead: string :=
    "Mozilla/5.0 (iPhone; " + "CPU iPhone OS 17_2 " + "like Mac OS X) " + "AppleWebKit/605.1.15 "
    + "(KHTML, like Gecko) "

  /** Chrome on iOS: the agent names Safari's engine but carries no
      `Version/` tag. */
  const ChromeOnIos: string :=
    IosHead + "CriOS/120.0.6099.119 " + "Mobile/15E148 " + "Safari/604.1"

  /** Firefox on iOS: the same shape with an `FxiOS` token. */
  const FirefoxOnIos: string :=
    IosHead + "FxiOS/121.0 " + "Mobile/15E148 " + "Safari/605.1.15"

  /** A token cannot occur in a string that lacks one of its characters. */
  lemma MissingCharBlocks(s: string, i: nat, t: string, k: nat)
    requires k < |t| && t[k] !in s
    ensures !StartsAt(s, i, t)
  {
  }

  /** Neither `m` nor `V` occurs in `s`. */
  predicate LacksMV(s: string)
  {
    'm' !in s && 'V' !in s
  }

  /** An agent that contains "Safari", lacks the letter `m` (so it cannot
      contain "Chrome") and lacks `V` (so it cannot contain "Version/") is
      named Safari and has no version: `getBrowserVersion` throws. */
  lemma SafariWithoutVersionTag(ua: string)
    requires Contains(ua, "Safari") && LacksMV(ua)
    ensures BrowserName(ua) == Safari
    ensures !VersionDefined(ua)
  {
    forall i: nat | i <= |ua|
      ensures !StartsAt(ua, i, "Chrome")
    {
      MissingCharBlocks(ua, i, "Chrome", 4);
    }
    forall j | 0 <= j <= |ua|
      ensures CaptureAt(ua, j, ["Version/"]).None?
    {
      MissingCharBlocks(ua, j, "Version/", 0);
      assert ["Version/"][1..] == [];
    }
  }

  lemma LacksMVAppend(a: string, b: string)
    requires LacksMV(a) && LacksMV(b)
    ensures LacksMV(a + b)
  {
  }

  lemma IosHeadLetters()
    ensures LacksMV(IosHead)
  {
    var a := "Mozilla/5.0 (iPhone; ";
    var b := "CPU iPhone OS 17_2 ";
    var c := "like Mac OS X) ";
    var d := "AppleWebKit/605.1.15 ";
    var e := "(KHTML, like Gecko) ";
    assert LacksMV(a);
    assert LacksMV(b);
    assert LacksMV(c);
    assert LacksMV(d);
    assert LacksMV(e);
    LacksMVAppend(a, b);
    LacksMVAppend(a + b, c);
    LacksMVAppend(a + b + c, d);
    LacksMVAppend(a + b + c + d, e);
  }

  /** `prefix + "Safari..."` contains "Safari". */
  lemma SafariAfter(prefix: string, tail: string)
    requires |tail| >= 6 && tail[..6] == "Safari"
    ensures Contains(prefix + tail, "Safari")
  {
    assert (prefix + tail)[|prefix|..|prefix| + 6] == tail[..6];
    assert StartsAt(prefix + tail, |prefix|, "Safari");
  }

  /** An iOS agent lacks `m` and `V` when its browser token and tail do. */
  lemma IosAgentLetters(token: string, tail: string)
    requires LacksMV(token) && LacksMV(tail)
    ensures LacksMV(IosHead + token + "Mobile/15E148 " + tail)
  {
    IosHeadLetters();
    var n := "Mobile/15E148 ";
    assert LacksMV(n);
    LacksMVAppend(IosHead, token);
    LacksMVAppend(IosHead + token, n);
    LacksMVAppend(IosHead + token + n, tail);
  }

  lemma ChromeOnIosNamesSafari()
    ensures Contains(ChromeOnIos, "Safari")
  {
    var p := IosHead + "CriOS/120.0.6099.119 " + "Mobile/15E148 ";
    assert ChromeOnIos == p + "Safari/604.1";
    SafariAfter(p, "Safari/604.1");
  }

  /** Chrome on iOS is named Safari and has no defined version. */
  lemma ChromeOnIosHasNoVersion()
    ensures BrowserName(ChromeOnIos) == Safari && !VersionDefined(ChromeOnIos)
  {
    IosAgentLetters("CriOS/120.0.6099.119 ", "Safari/604.1");
    ChromeOnIosNamesSafari();
    SafariWithoutVersionTag(ChromeOnIos);
  }

  lemma FirefoxOnIosNamesSafari()
    ensures Contains(FirefoxOnIos, "Safari")
  {
    var p := IosHead + "FxiOS/121.0 " + "Mobile/15E148 ";
    assert FirefoxOnIos == p + "Safari/605.1.15";
    SafariAfter(p, "Safari/605.1.15");
  }

  /** Firefox on iOS is named Safari and has no defined version. */
  lemma FirefoxOnIosHasNoVersion()
    ensures BrowserName(FirefoxOnIos) == Safari && !VersionDefined(FirefoxOnIos)
  {
    IosAgentLetters("FxiOS/121.0 ", "Safari/605.1.15");
    FirefoxOnIosNamesSafari();
    SafariWithoutVersionTag(FirefoxOnIos);
  }

  // ---------------------------------------------------------------------------
  // Device type: two case-insensitive token alternations
  // ---------------------------------------------------------------------------

  datatype DeviceType = Tablet | Mobile | Desktop
  {
    function Label(): string
    {
      match this
      case Tablet => "Tablet"
      case Mobile => "Mobile"
      case Desktop => "Desktop"
    }
  }

  const TabletTokens: seq<string> := ["tablet", "ipad", "playbook", "silk"]

  /** The mobile alternation, except `windows\sce`, which is matched by `WindowsCeAt`. */
  const MobileTokens: seq<string> :=
    ["mobile", "iphone", "ipod", "android", "blackberry", "opera", "mini", "palm", "smartphone", "iemobile"]

  /** JavaScript's `\s`: the WhiteSpace and LineTerminator characters. */
  predicate IsJsSpace(c: char)
  {
    c == '\t' || c == '\n' || c == '\U{000B}' || c == '\U{000C}' || c == '\r' || c == ' '
    || c == '\U{00A0}' || c == '\U{1680}' || ('\U{2000}' <= c <= '\U{200A}')
    || c == '\U{2028}' || c == '\U{2029}' || c == '\U{202F}' || c == '\U{205F}'
    || c == '\U{3000}' || c == '\U{FEFF}'
  }

  /** `windows\sce` matches at index `i` of the lower-cased agent. */
  predicate WindowsCeAt(s: string, i: nat)
  {
    StartsAt(s, i, "windows") && i + 10 <= |s| && IsJsSpace(s[i + 7]) && StartsAt(s, i + 8, "ce")
  }

  /** `/tablet|ipad|playbook|silk/i.test(ua)`. */
  predicate IsTabletAgent(ua: string)
  {
    AnyToken(Lower(ua), TabletTokens)
  }

  /** `/mobile|iphone|...|windows\sce|palm|smartphone|iemobile/i.test(ua)`. */
  predicate IsMobileAgent(ua: string)
  {
    AnyToken(Lower(ua), MobileTokens) || exists i: nat :: i <= |ua| && WindowsCeAt(Lower(ua), i)
  }

  /** Tablet tokens are tried before mobile tokens; anything else is a desktop. */
  function GetDeviceType(ua: string): (r: DeviceType)
    ensures r == Tablet <==> IsTabletAgent(ua)
    ensures r == Mobile <==> !IsTabletAgent(ua) && IsMobileAgent(ua)
    ensures r == Desktop <==> !IsTabletAgent(ua) && !IsMobileAgent(ua)
  {
    if IsTabletAgent(ua) then Tablet
    else if IsMobileAgent(ua) then Mobile
    else Desktop
  }

  /** Matching ignores ASCII case: lower-casing the agent first never changes
      the device type, nor does any other change of letter case. */
  lemma DeviceTypeIgnoresCase(ua: string, ua': string)
    requires Lower(ua) == Lower(ua')
    ensures GetDeviceType(Lower(ua)) == GetDeviceType(ua)
    ensures GetDeviceType(ua') == GetDeviceType(ua)
  {
    assert Lower(Lower(ua)) == Lower(ua);
  }

  /** Any agent that mentions Opera, in any letter case, and no tablet token, is Mobile. */
  lemma OperaAgentIsMobile(ua: string, t: string)
    requires Lower(t) == "opera"
    requires Contains(ua, t)
    requires !IsTabletAgent(ua)
    ensures GetDeviceType(ua) == Mobile
  {
    LowerPreservesContains(ua, t);
    AnyTokenHolds(Lower(ua), MobileTokens, 5);
  }

  /** A browser identified as Opera is never classified Desktop. */
  lemma OperaBrowserIsNotDesktop(ua: string)
    requires BrowserName(ua) == Opera
    ensures GetDeviceType(ua) != Desktop
  {
    assert Contains(ua, "Opera");
    if !IsTabletAgent(ua) {
      OperaAgentIsMobile(ua, "Opera");
    }
  }
}
