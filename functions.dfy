/**
 * The pure helpers of the controller: the get/set method-name rule, the
 * Hubstairs origin recogniser and the normalisation of an embed id or URL.
 */
module Functions {
  import opened Wrappers
  import opened JsValues

  // ---------------------------------------------------------------------
  // Case mapping and prefixes
  // ---------------------------------------------------------------------

  function LowerChar(c: char): char {
    if 'A' <= c <= 'Z' then (c as int + 32) as char else c
  }

  function UpperChar(c: char): char {
    if 'a' <= c <= 'z' then (c as int - 32) as char else c
  }

  /** `s.toLowerCase()`, on the ASCII letters. */
  function Lower(s: string): (r: string)
    ensures |r| == |s|
    ensures forall i :: 0 <= i < |s| ==> r[i] == LowerChar(s[i])
  {
    seq(|s|, i requires 0 <= i < |s| => LowerChar(s[i]))
  }

  /** `s.toUpperCase()`, on the ASCII letters. */
  function Upper(s: string): (r: string)
    ensures |r| == |s|
    ensures forall i :: 0 <= i < |s| ==> r[i] == UpperChar(s[i])
  {
    seq(|s|, i requires 0 <= i < |s| => UpperChar(s[i]))
  }

  /** `s.indexOf(p) === 0`: the first occurrence of `p` is at the start. */
  predicate StartsWith(s: string, p: string) {
    |p| <= |s| && s[..|p|] == p
  }

  // ---------------------------------------------------------------------
  // getMethodName
  // ---------------------------------------------------------------------

  /**
   * `getMethodName(prop, type)`: `prop` itself when it already starts with
   * the lower-cased `type`, otherwise that prefix followed by `prop` with its
   * first character upper-cased (`substr(0, 1)` and `substr(1)` of an empty
   * string are both empty).
   */
  function GetMethodName(prop: string, kind: string): string {
    var prefix := Lower(kind);
    if StartsWith(prop, prefix) then prop
    else if prop == [] then prefix
    else prefix + Upper(prop[..1]) + prop[1..]
  }

  /** Every method name produced starts with the lower-cased type. */
  lemma MethodNameHasPrefix(prop: string, kind: string)
    ensures StartsWith(GetMethodName(prop, kind), Lower(kind))
  {
    var prefix := Lower(kind);
    var r := GetMethodName(prop, kind);
    if !StartsWith(prop, prefix) {
      assert r[..|prefix|] == prefix;
    }
  }

  /** The name is left alone exactly when it already carries the prefix. */
  lemma MethodNameUnchangedIff(prop: string, kind: string)
    ensures GetMethodName(prop, kind) == prop <==> StartsWith(prop, Lower(kind))
  {
    MethodNameHasPrefix(prop, kind);
  }

  /**
   * Otherwise the prefix is prepended and only the first character of `prop`
   * changes (upper-cased); the rest is kept in place.
   */
  lemma MethodNamePrefixed(prop: string, kind: string)
    requires !StartsWith(prop, Lower(kind))
    ensures var r := GetMethodName(prop, kind);
      && |r| == |Lower(kind)| + |prop|
      && r[..|Lower(kind)|] == Lower(kind)
      && (prop != [] ==> r[|Lower(kind)|] == UpperChar(prop[0]))
      && forall i :: 1 <= i < |prop| ==> r[|Lower(kind)| + i] == prop[i]
  {
    var prefix := Lower(kind);
    var r := GetMethodName(prop, kind);
    if prop != [] {
      assert r == prefix + Upper(prop[..1]) + prop[1..];
      forall i | 1 <= i < |prop| ensures r[|prefix| + i] == prop[i] {
        assert r[|prefix| + i] == prop[1..][i - 1];
      }
    }
  }

  /** Applying the rule twice gives the same name as applying it once. */
  lemma MethodNameIdempotent(prop: string, kind: string)
    ensures GetMethodName(GetMethodName(prop, kind), kind) == GetMethodName(prop, kind)
  {
    MethodNameHasPrefix(prop, kind);
  }

  /** The cases `src/lib/functions.test.js` checks. */
  lemma MethodNameExamples()
    ensures GetMethodName("color", "get") == "getColor"
    ensures GetMethodName("color", "GET") == "getColor"
    ensures GetMethodName("getColor", "get") == "getColor"
    ensures GetMethodName("color", "SET") == "setColor"
    ensures GetMethodName("setColor", "set") == "setColor"
  {
    assert Lower("GET") == "get";
    assert Lower("SET") == "set";
    assert Upper("c") == "C";
    assert Lower("get") == "get";
    assert Lower("set") == "set";
    assert "color"[..3] == "col";
    assert "getColor"[..3] == "get";
    assert "setColor"[..3] == "set";
  }

  // ---------------------------------------------------------------------
  // isHubstairsUrl: /^(https?:)?\/\/display.*hubstairs\.com(:\d+)?(?=$|\/)/
  // ---------------------------------------------------------------------

  const SlashDisplay: string := "//display"
  const HostName: string := "hubstairs.com"

  /** The characters the regular expression's `.` does not match. */
  predicate IsLineBreak(c: char) {
    c == '\n' || c == '\r' || c == '\U{2028}' || c == '\U{2029}'
  }

  predicate IsDigit(c: char) {
    '0' <= c <= '9'
  }

  predicate NoLineBreak(s: string) {
    forall i :: 0 <= i < |s| ==> !IsLineBreak(s[i])
  }

  /** `(https?:)?` */
  predicate IsScheme(p: string) {
    p == "" || p == "http:" || p == "https:"
  }

  /** `(:\d+)?` */
  predicate IsPort(p: string) {
    p == "" || (|p| >= 2 && p[0] == ':' && forall i :: 1 <= i < |p| ==> IsDigit(p[i]))
  }

  /** `(?=$|\/)` */
  predicate IsBoundary(rest: string) {
    rest == "" || rest[0] == '/'
  }

  /** A split of a URL into the parts the pattern matches. */
  datatype UrlSplit = UrlSplit(scheme: string, middle: string, port: string, rest: string)

  function Joined(w: UrlSplit): string {
    w.scheme + SlashDisplay + w.middle + HostName + w.port + w.rest
  }

  predicate WellFormed(w: UrlSplit) {
    IsScheme(w.scheme) && NoLineBreak(w.middle) && IsPort(w.port) && IsBoundary(w.rest)
  }

  /**
   * The shape the pattern accepts, as a split of the string: optional scheme,
   * `//display`, any text without line breaks, `hubstairs.com`, an optional
   * port, then the end of the string or a `/`.
   */
  ghost predicate HubstairsUrlShape(s: string) {
    exists w :: WellFormed(w) && Joined(w) == s
  }

  /** The text after the scheme the pattern would consume. */
  function AfterScheme(s: string): (t: string)
    ensures |t| <= |s| && t == s[|s| - |t|..]
  {
    if StartsWith(s, "https:") then s[6..]
    else if StartsWith(s, "http:") then s[5..]
    else s
  }

  /** After `:`, one or more digits from position `j`, then the end or a `/`. */
  predicate DigitsThenBoundary(r: string, j: nat)
    requires j <= |r|
    decreases |r| - j
  {
    j < |r| && IsDigit(r[j]) && (j + 1 == |r| || r[j + 1] == '/' || DigitsThenBoundary(r, j + 1))
  }

  predicate TailOk(r: string) {
    r == "" || r[0] == '/' || (r[0] == ':' && DigitsThenBoundary(r, 1))
  }

  /** `.*hubstairs\.com(:\d+)?(?=$|\/)` matched against `u`, with `.*` covering `u[..i]` so far. */
  predicate HostFrom(u: string, i: nat)
    requires i <= |u|
    decreases |u| - i
  {
    (StartsWith(u[i..], HostName) && TailOk(u[i + |HostName|..]))
    || (i < |u| && !IsLineBreak(u[i]) && HostFrom(u, i + 1))
  }

  /** `isHubstairsUrl(url)`: the regular expression's test, written as a recogniser. */
  predicate IsHubstairsUrl(s: string) {
    var t := AfterScheme(s);
    StartsWith(t, SlashDisplay) && HostFrom(t[|SlashDisplay|..], 0)
  }

  // --- the recogniser accepts exactly the strings of the documented shape ---

  lemma {:induction false} TailOkOfShape(port: string, rest: string)
    requires IsPort(port) && IsBoundary(rest)
    ensures TailOk(port + rest)
  {
    var r := port + rest;
    if port == "" {
      assert r == rest;
    } else {
      assert r[0] == ':';
      forall i | 1 <= i < |port| ensures IsDigit(r[i]) { assert r[i] == port[i]; }
      assert |port| == |r| || r[|port|] == '/' by {
        if |port| < |r| { assert r[|port|] == rest[0]; }
      }
      DigitsRun(r, 1, |port|);
    }
  }

  lemma {:induction false} DigitsRun(r: string, j: nat, k: nat)
    requires 1 <= j < k <= |r|
    requires forall i :: j <= i < k ==> IsDigit(r[i])
    requires k == |r| || r[k] == '/'
    ensures DigitsThenBoundary(r, j)
    decreases k - j
  {
    if j + 1 < k {
      DigitsRun(r, j + 1, k);
    }
  }

  lemma {:induction false} ShapeOfDigitsRun(r: string, j: nat) returns (k: nat)
    requires 1 <= j <= |r|
    requires DigitsThenBoundary(r, j)
    ensures j < k <= |r| && (forall i :: j <= i < k ==> IsDigit(r[i])) && (k == |r| || r[k] == '/')
    decreases |r| - j
  {
    if j + 1 == |r| || r[j + 1] == '/' {
      k := j + 1;
    } else {
      k := ShapeOfDigitsRun(r, j + 1);
    }
  }

  lemma {:induction false} ShapeOfTailOk(r: string) returns (port: string, rest: string)
    requires TailOk(r)
    ensures IsPort(port) && IsBoundary(rest) && r == port + rest
  {
    if r == "" || r[0] == '/' {
      port, rest := "", r;
    } else {
      var k := ShapeOfDigitsRun(r, 1);
      port, rest := r[..k], r[k..];
      assert r == port + rest;
    }
  }

  lemma {:induction false} HostFromMiddle(middle: string, tail: string, i: nat)
    requires NoLineBreak(middle) && TailOk(tail) && i <= |middle|
    ensures HostFrom(middle + HostName + tail, i)
    decreases |middle| - i
  {
    var u := middle + HostName + tail;
    if i == |middle| {
      assert u[i..] == HostName + tail;
      assert u[i + |HostName|..] == tail;
    } else {
      assert u[i] == middle[i];
      HostFromMiddle(middle, tail, i + 1);
    }
  }

  lemma {:induction false} MiddleOfHostFrom(u: string, i: nat) returns (k: nat)
    requires i <= |u| && HostFrom(u, i)
    requires NoLineBreak(u[..i])
    ensures i <= k && k + |HostName| <= |u|
    ensures NoLineBreak(u[..k]) && u[k..k + |HostName|] == HostName && TailOk(u[k + |HostName|..])
    decreases |u| - i
  {
    if StartsWith(u[i..], HostName) && TailOk(u[i + |HostName|..]) {
      k := i;
      assert u[k..k + |HostName|] == u[i..][..|HostName|];
    } else {
      var w := u[..i + 1];
      assert NoLineBreak(w) by {
        forall j | 0 <= j < |w| ensures !IsLineBreak(w[j]) {
          if j < i { assert w[j] == u[..i][j]; }
        }
      }
      k := MiddleOfHostFrom(u, i + 1);
    }
  }

  lemma AfterSchemeOf(scheme: string, body: string)
    requires IsScheme(scheme) && StartsWith(body, SlashDisplay)
    ensures AfterScheme(scheme + body) == body
  {
    var s := scheme + body;
    SliceAppend(scheme, body);
    if scheme == "" {
      assert s == body && s[0] == '/';
      assert !StartsWith(s, "https:") by { assert |s| < 6 || s[..6][0] != "https:"[0]; }
      assert !StartsWith(s, "http:") by { assert |s| < 5 || s[..5][0] != "http:"[0]; }
    } else if scheme == "http:" {
      assert !StartsWith(s, "https:") by { assert s[4] == ':' && (|s| < 6 || s[..6][4] != "https:"[4]); }
      assert StartsWith(s, "http:");
    } else {
      assert StartsWith(s, "https:");
    }
  }

  lemma Split3<T>(u: seq<T>, i: nat, j: nat)
    requires i <= j <= |u|
    ensures u == u[..i] + u[i..j] + u[j..]
  {
  }

  lemma JoinedNested(w: UrlSplit)
    ensures Joined(w) == w.scheme + (SlashDisplay + (w.middle + HostName + (w.port + w.rest)))
  {
    var x := w.middle + HostName;
    assert x + w.port + w.rest == x + (w.port + w.rest);
    var y := w.scheme + SlashDisplay;
    assert y + w.middle + HostName == y + x;
    assert y + x + (w.port + w.rest) == y + (x + (w.port + w.rest));
  }

  lemma ShapeIsRecognised(w: UrlSplit)
    requires WellFormed(w)
    ensures IsHubstairsUrl(Joined(w))
  {
    var tail := w.port + w.rest;
    TailOkOfShape(w.port, w.rest);
    var u := w.middle + HostName + tail;
    HostFromMiddle(w.middle, tail, 0);
    var body := SlashDisplay + u;
    assert body[..|SlashDisplay|] == SlashDisplay;
    assert body[|SlashDisplay|..] == u;
    JoinedNested(w);
    AfterSchemeOf(w.scheme, body);
  }

  lemma RecognisedHasShape(s: string) returns (w: UrlSplit)
    requires IsHubstairsUrl(s)
    ensures WellFormed(w) && Joined(w) == s
  {
    var t := AfterScheme(s);
    var u := t[|SlashDisplay|..];
    assert NoLineBreak(u[..0]);
    var k := MiddleOfHostFrom(u, 0);
    var scheme := s[..|s| - |t|];
    assert IsScheme(scheme) && s == scheme + t by {
      if StartsWith(s, "https:") { assert scheme == s[..6]; }
      else if StartsWith(s, "http:") { assert scheme == s[..5]; }
      else { assert scheme == ""; }
    }
    var middle, tail := u[..k], u[k + |HostName|..];
    var port, rest := ShapeOfTailOk(tail);
    w := UrlSplit(scheme, middle, port, rest);
    Split3(u, k, k + |HostName|);
    Split3(t, 0, |SlashDisplay|);
    JoinedNested(w);
  }

  /** The recogniser and the documented shape agree on every string, both ways. */
  lemma IsHubstairsUrlIff(s: string)
    ensures IsHubstairsUrl(s) <==> HubstairsUrlShape(s)
  {
    if HubstairsUrlShape(s) {
      var w :| WellFormed(w) && Joined(w) == s;
      ShapeIsRecognised(w);
    }
    if IsHubstairsUrl(s) {
      var w := RecognisedHasShape(s);
    }
  }

  /** Cases `src/lib/functions.test.js` checks: a display host, with a port, with a path. */
  lemma AcceptsDisplayHost()
    ensures IsHubstairsUrl("https://display.hubstairs.com")
  {
    DisplayHostText();
    ShapeIsRecognised(UrlSplit("https:", ".", "", ""));
  }

  lemma DisplayHostText()
    ensures Joined(UrlSplit("https:", ".", "", "")) == "https://display.hubstairs.com"
  {
    AppendEmpty("https:" + SlashDisplay + "." + HostName);
    AppendEmpty("https:" + SlashDisplay + "." + HostName + "");
    assert "https:" + "//display" + "." + "hubstairs.com" == "https://display.hubstairs.com";
  }

  lemma AcceptsPortedHost()
    ensures IsHubstairsUrl("//display-something.hubstairs.com:1000")
  {
    PortedHostText();
    assert IsPort(":1000");
    ShapeIsRecognised(UrlSplit("", "-something.", ":1000", ""));
  }

  lemma PortedHostText()
    ensures Joined(UrlSplit("", "-something.", ":1000", "")) == "//display-something.hubstairs.com:1000"
  {
    var x := "" + SlashDisplay + "-something." + HostName + ":1000";
    AppendEmpty(x);
    assert "" + SlashDisplay == SlashDisplay;
    assert "//display" + "-something." + "hubstairs.com" + ":1000" == "//display-something.hubstairs.com:1000";
  }

  lemma AcceptsPath()
    ensures IsHubstairsUrl("https://display.hubstairs.com/v1/1234")
  {
    IdExampleText();
    IdUrlShape("1234");
  }

  /** A look-alike host is refused: `hubstairs.com` must end the host. */
  lemma RefusesLookAlike()
    ensures !IsHubstairsUrl("https://display.hubstairs.com.evil.net")
  {
    var ud := ".hubstairs.com.evil.net";
    LookAlikeText();
    SliceAppend(SlashDisplay, ud);
    AfterSchemeOf("https:", SlashDisplay + ud);
    NoHostIn(ud);
  }

  lemma LookAlikeText()
    ensures "https://display.hubstairs.com.evil.net" == "https:" + (SlashDisplay + ".hubstairs.com.evil.net")
  {
    LookAlikeHost();
    LookAlikeScheme();
  }

  lemma LookAlikeHost()
    ensures "//display" + ".hubstairs.com.evil.net" == "//display.hubstairs.com.evil.net"
  {
  }

  lemma LookAlikeScheme()
    ensures "https:" + "//display.hubstairs.com.evil.net" == "https://display.hubstairs.com.evil.net"
  {
  }

  /** A host without the `display` prefix is refused. */
  lemma RefusesOtherHost()
    ensures !IsHubstairsUrl("https://nothubstairs.com")
  {
    var e := "https://nothubstairs.com";
    assert e[..6] == "https:";
    assert e[6..][2] != SlashDisplay[2];
  }

  lemma NoHostIn(ud: string)
    requires ud == ".hubstairs.com.evil.net"
    ensures !HostFrom(ud, 0)
  {
    forall i | 0 <= i <= |ud| ensures !(StartsWith(ud[i..], HostName) && TailOk(ud[i + |HostName|..])) {
      NoHostAt(ud, i);
    }
    HostFromNever(ud, 0);
  }

  lemma NoHostAt(ud: string, i: nat)
    requires ud == ".hubstairs.com.evil.net" && i <= |ud|
    ensures !(StartsWith(ud[i..], HostName) && TailOk(ud[i + |HostName|..]))
  {
    if i == 1 {
      assert ud[14..] == ".evil.net";
    } else if i + |HostName| <= |ud| {
      assert ud[i..][0] == ud[i];
      assert ud[i] != 'h';
    }
  }

  lemma {:induction false} HostFromNever(u: string, i: nat)
    requires i <= |u|
    requires forall j :: i <= j <= |u| ==> !(StartsWith(u[j..], HostName) && TailOk(u[j + |HostName|..]))
    ensures !HostFrom(u, i)
    decreases |u| - i
  {
    if i < |u| {
      HostFromNever(u, i + 1);
    }
  }

  /** The host part alone takes `hubstairs.com`'s thirteen characters. */
  lemma {:induction false} HostFromLength(u: string, i: nat)
    requires i <= |u| && HostFrom(u, i)
    ensures |u| - i >= |HostName|
    decreases |u| - i
  {
    if !(StartsWith(u[i..], HostName) && TailOk(u[i + |HostName|..])) {
      HostFromLength(u, i + 1);
    }
  }

  /** A Hubstairs URL is at least as long as `//displayhubstairs.com`; in particular `*` is none. */
  lemma HubstairsUrlLength(s: string)
    requires IsHubstairsUrl(s)
    ensures |s| >= |SlashDisplay| + |HostName|
  {
    var t := AfterScheme(s);
    HostFromLength(t[|SlashDisplay|..], 0);
  }

  // ---------------------------------------------------------------------
  // getHubstairsUrl
  // ---------------------------------------------------------------------

  /** The two oEmbed parameters read (`undefined` when not given). */
  datatype EmbedParams = EmbedParams(url: Value, displayId: Value)

  datatype UrlError =
    | MissingIdOrUrl              // plain Error: neither an id nor a url
    | InvalidDisplayId(id: Value) // TypeError: the display id is not valid
    | NotHubstairsUrl(value: Value) // TypeError: not a display.hubstairs.com url
    | NoReplace(value: Value)     // TypeError: a non-string passed the pattern and has no `replace`

  const DisplayBase: string := "https://display.hubstairs.com/v1/"

  /** `s.replace(pat, rep)` with a string pattern: only the first occurrence is replaced. */
  function ReplaceFirst(s: string, pat: string, rep: string): string
    requires pat != ""
    decreases |s|
  {
    if |s| < |pat| then s
    else if s[..|pat|] == pat then rep + s[|pat|..]
    else [s[0]] + ReplaceFirst(s[1..], pat, rep)
  }

  predicate OccursAt(s: string, pat: string, k: nat) {
    k + |pat| <= |s| && s[k..k + |pat|] == pat
  }

  /**
   * `getHubstairsUrl(params)`, with the float-based `isInteger` check passed
   * in as a predicate.
   */
  function GetHubstairsUrl(p: EmbedParams, isInteger: Value -> bool): Result<string, UrlError> {
    var idOrUrl := if Truthy(p.displayId) then p.displayId else p.url;
    if !Truthy(idOrUrl) then Err(MissingIdOrUrl)
    else if isInteger(idOrUrl) then Ok(DisplayBase + ToStr(idOrUrl))
    else if IsHubstairsUrl(ToStr(idOrUrl)) then
      (if idOrUrl.Str? then Ok(ReplaceFirst(idOrUrl.s, "http:", "https:")) else Err(NoReplace(idOrUrl)))
    else if Truthy(p.displayId) then Err(InvalidDisplayId(p.displayId))
    else Err(NotHubstairsUrl(idOrUrl))
  }

  // --- replace: where the first occurrence is, and what happens without one ---

  lemma {:induction false} ReplaceFirstSomewhere(s: string, pat: string, rep: string) returns (k: nat)
    requires pat != ""
    requires ReplaceFirst(s, pat, rep) != s
    ensures OccursAt(s, pat, k)
    ensures ReplaceFirst(s, pat, rep) == s[..k] + rep + s[k + |pat|..]
    decreases |s|
  {
    if s[..|pat|] == pat {
      k := 0;
    } else {
      var k' := ReplaceFirstSomewhere(s[1..], pat, rep);
      k := k' + 1;
      assert s[1..][k'..k' + |pat|] == s[k..k + |pat|];
      assert s == [s[0]] + s[1..];
      assert s[..k] == [s[0]] + s[1..][..k'];
      assert s[1..][k' + |pat|..] == s[k + |pat|..];
    }
  }

  lemma {:induction false} ReplaceFirstNone(s: string, pat: string, rep: string)
    requires pat != ""
    requires forall k :: 0 <= k <= |s| ==> !OccursAt(s, pat, k)
    ensures ReplaceFirst(s, pat, rep) == s
    decreases |s|
  {
    if |s| >= |pat| {
      assert !OccursAt(s, pat, 0);
      assert s[0..|pat|] == s[..|pat|];
      forall k | 0 <= k <= |s[1..]| ensures !OccursAt(s[1..], pat, k) {
        assert !OccursAt(s, pat, k + 1);
        if k + |pat| <= |s[1..]| {
          assert s[1..][k..k + |pat|] == s[k + 1..k + 1 + |pat|];
        }
      }
      ReplaceFirstNone(s[1..], pat, rep);
    }
  }

  /**
   * A URL is returned unchanged exactly when it contains no `http:`; an
   * `http:` scheme becomes `https:`.
   */
  lemma UpgradeToHttps(s: string)
    ensures StartsWith(s, "http:") ==> ReplaceFirst(s, "http:", "https:") == "https:" + s[5..]
    ensures ReplaceFirst(s, "http:", "https:") == s <==> forall k :: 0 <= k <= |s| ==> !OccursAt(s, "http:", k)
  {
    var r := ReplaceFirst(s, "http:", "https:");
    if r != s {
      var k := ReplaceFirstSomewhere(s, "http:", "https:");
    } else if exists k :: 0 <= k <= |s| && OccursAt(s, "http:", k) {
      var k :| 0 <= k <= |s| && OccursAt(s, "http:", k);
      ReplaceFirstLonger(s, k);
    } else {
      ReplaceFirstNone(s, "http:", "https:");
    }
  }

  lemma {:induction false} ReplaceFirstLonger(s: string, k: nat)
    requires OccursAt(s, "http:", k)
    ensures |ReplaceFirst(s, "http:", "https:")| == |s| + 1
    decreases |s|
  {
    if s[..5] != "http:" {
      assert s[0..5] == s[..5];
      assert k > 0;
      assert s[1..][k - 1..k - 1 + 5] == s[k..k + 5];
      ReplaceFirstLonger(s[1..], k - 1);
    }
  }

  // --- getHubstairsUrl only produces Hubstairs URLs ---

  lemma ReplaceInside<T>(p: seq<T>, m: seq<T>, q: seq<T>, i: nat, n: nat, x: seq<T>)
    requires i + n <= |m|
    ensures (p + m + q)[..|p| + i] + x + (p + m + q)[|p| + i + n..] == p + (m[..i] + x + m[i + n..]) + q
  {
    var s := p + m + q;
    assert s[..|p| + i] == p + m[..i];
    assert s[|p| + i + n..] == m[i + n..] + q;
  }

  lemma HttpAt(s: string, k: nat)
    requires OccursAt(s, "http:", k)
    ensures s[k] == 'h' && s[k + 1] == 't'
    ensures forall i :: k < i < k + 5 ==> s[i] != 'h'
  {
    assert s[k..k + 5] == "http:";
    forall i | k < i < k + 5 ensures s[i] != 'h' { assert s[k..k + 5][i - k] == s[i]; }
  }

  lemma JoinedChars(w: UrlSplit)
    ensures var s, a := Joined(w), |w.scheme|;
      var b := a + |SlashDisplay|;
      var c := b + |w.middle|;
      var d := c + |HostName|;
      var e := d + |w.port|;
      && |s| == e + |w.rest|
      && (forall i :: 0 <= i < a ==> s[i] == w.scheme[i])
      && (forall i :: a <= i < b ==> s[i] == SlashDisplay[i - a])
      && (forall i :: c <= i < d ==> s[i] == HostName[i - c])
      && (forall i :: d <= i < e ==> s[i] == w.port[i - d])
      && (forall i :: e <= i < |s| ==> s[i] == w.rest[i - e])
  {
  }

  /**
   * Where `http:` can occur in a Hubstairs URL: as the scheme, inside the
   * text between `//display` and the host, or in the path after it.
   */
  lemma OccurrenceSites(w: UrlSplit, k: nat)
    requires WellFormed(w) && OccursAt(Joined(w), "http:", k)
    ensures var b := |w.scheme| + |SlashDisplay|;
      || (k == 0 && w.scheme == "http:")
      || (b <= k && k + 5 <= b + |w.middle|)
      || (k > b + |w.middle| + |HostName| + |w.port|)
  {
    var s := Joined(w);
    var a := |w.scheme|;
    var b := a + |SlashDisplay|;
    var c := b + |w.middle|;
    var d := c + |HostName|;
    var e := d + |w.port|;
    HttpAt(s, k);
    JoinedChars(w);
    FixedPartsLetters();
    assert s[c] == 'h' && s[c + 1] == 'u';
    assert w.scheme == "https:" ==> s[4] == 's';
    if k < a {
    } else if k < b {
      assert false;
    } else if k + 5 <= c {
    } else if k <= e {
      assert false;
    }
  }

  /** Where `h` occurs in the fixed parts of the pattern: only at the start of the host. */
  lemma FixedPartsLetters()
    ensures forall j :: 0 <= j < |SlashDisplay| ==> SlashDisplay[j] != 'h'
    ensures HostName[0] == 'h' && HostName[1] == 'u'
    ensures forall j :: 1 <= j < |HostName| ==> HostName[j] != 'h'
  {
  }

  /** Replacing any occurrence of `http:` by `https:` keeps a Hubstairs URL one. */
  lemma ReplaceKeepsShape(w: UrlSplit, k: nat) returns (w': UrlSplit)
    requires WellFormed(w) && OccursAt(Joined(w), "http:", k)
    ensures WellFormed(w')
    ensures Joined(w') == Joined(w)[..k] + "https:" + Joined(w)[k + 5..]
  {
    OccurrenceSites(w, k);
    var b := |w.scheme| + |SlashDisplay|;
    if k == 0 && w.scheme == "http:" {
      w' := ReplaceInScheme(w);
    } else if b <= k && k + 5 <= b + |w.middle| {
      w' := ReplaceInMiddle(w, k - b);
    } else {
      w' := ReplaceInRest(w, k - (b + |w.middle| + |HostName| + |w.port|));
    }
  }

  lemma ReplaceInScheme(w: UrlSplit) returns (w': UrlSplit)
    requires WellFormed(w) && w.scheme == "http:"
    ensures WellFormed(w')
    ensures Joined(w') == Joined(w)[..0] + "https:" + Joined(w)[5..]
  {
    w' := w.(scheme := "https:");
    var after := SlashDisplay + (w.middle + HostName + (w.port + w.rest));
    JoinedNested(w);
    JoinedNested(w');
    ReplaceInside([], w.scheme, after, 0, 5, "https:");
    assert w.scheme[..0] + "https:" + w.scheme[5..] == "https:";
  }

  lemma ReplaceInMiddle(w: UrlSplit, i: nat) returns (w': UrlSplit)
    requires WellFormed(w) && i + 5 <= |w.middle|
    ensures WellFormed(w')
    ensures var k := |w.scheme| + |SlashDisplay| + i;
      Joined(w') == Joined(w)[..k] + "https:" + Joined(w)[k + 5..]
  {
    var m := w.middle[..i] + "https:" + w.middle[i + 5..];
    assert NoLineBreak(m) by {
      forall j | 0 <= j < |m| ensures !IsLineBreak(m[j]) {
        if j < i { assert m[j] == w.middle[j]; }
        else if j < i + 6 { assert m[j] == "https:"[j - i]; }
        else { assert m[j] == w.middle[j - 1]; }
      }
    }
    w' := w.(middle := m);
    var front := w.scheme + SlashDisplay;
    var host := HostName + w.port + w.rest;
    assert Joined(w) == front + w.middle + host;
    assert Joined(w') == front + m + host;
    ReplaceInside(front, w.middle, host, i, 5, "https:");
  }

  lemma ReplaceInRest(w: UrlSplit, i: nat) returns (w': UrlSplit)
    requires WellFormed(w) && 0 < i && i + 5 <= |w.rest|
    ensures WellFormed(w')
    ensures var k := |w.scheme| + |SlashDisplay| + |w.middle| + |HostName| + |w.port| + i;
      Joined(w') == Joined(w)[..k] + "https:" + Joined(w)[k + 5..]
  {
    var rest' := w.rest[..i] + "https:" + w.rest[i + 5..];
    assert rest'[0] == w.rest[0];
    w' := w.(rest := rest');
    var before := w.scheme + SlashDisplay + w.middle + HostName + w.port;
    assert Joined(w) == before + w.rest + [];
    assert Joined(w') == before + rest' + [];
    ReplaceInside(before, w.rest, [], i, 5, "https:");
  }

  /** The integer-id URL is a Hubstairs URL, whatever the id prints as. */
  lemma IdUrlShape(id: string)
    ensures IsHubstairsUrl(DisplayBase + id)
  {
    var host := "https:" + SlashDisplay + "." + HostName;
    var w := UrlSplit("https:", ".", "", "/v1/" + id);
    AppendEmpty(host);
    assert Joined(w) == host + ("/v1/" + id);
    AppendAssoc(host, "/v1/", id);
    DisplayBaseText();
    ShapeIsRecognised(w);
  }

  lemma DisplayBaseText()
    ensures DisplayBase == "https:" + SlashDisplay + "." + HostName + "/v1/"
  {
    assert "https://display.hubstairs.com/v1/" == "https:" + "//display" + "." + "hubstairs.com" + "/v1/";
  }

  /**
   * Every URL `getHubstairsUrl` returns passes `isHubstairsUrl`, so the
   * embed is only ever pointed at a Hubstairs display host.
   */
  lemma GetHubstairsUrlIsHubstairs(p: EmbedParams, isInteger: Value -> bool)
    requires GetHubstairsUrl(p, isInteger).Ok?
    ensures IsHubstairsUrl(GetHubstairsUrl(p, isInteger).value)
  {
    var idOrUrl := if Truthy(p.displayId) then p.displayId else p.url;
    if isInteger(idOrUrl) {
      IdUrlShape(ToStr(idOrUrl));
    } else {
      UpgradeKeepsHubstairs(idOrUrl.s);
    }
  }

  /** Replacing the first `http:` of a Hubstairs URL by `https:` leaves a Hubstairs URL. */
  lemma UpgradeKeepsHubstairs(s: string)
    requires IsHubstairsUrl(s)
    ensures IsHubstairsUrl(ReplaceFirst(s, "http:", "https:"))
  {
    if ReplaceFirst(s, "http:", "https:") != s {
      var w := RecognisedHasShape(s);
      var k := ReplaceFirstSomewhere(s, "http:", "https:");
      var w' := ReplaceKeepsShape(w, k);
      ShapeIsRecognised(w');
    }
  }

  /** The error outcomes, each with the condition that produces it. */
  lemma GetHubstairsUrlErrors(p: EmbedParams, isInteger: Value -> bool)
    ensures GetHubstairsUrl(p, isInteger) == Err(MissingIdOrUrl) <==> !Truthy(p.displayId) && !Truthy(p.url)
    ensures GetHubstairsUrl(p, isInteger).Err? && GetHubstairsUrl(p, isInteger).error.InvalidDisplayId? <==>
      Truthy(p.displayId) && !isInteger(p.displayId) && !IsHubstairsUrl(ToStr(p.displayId))
    ensures GetHubstairsUrl(p, isInteger).Err? && GetHubstairsUrl(p, isInteger).error.NotHubstairsUrl? <==>
      !Truthy(p.displayId) && Truthy(p.url) && !isInteger(p.url) && !IsHubstairsUrl(ToStr(p.url))
  {
  }

  /** The conversions `src/lib/functions.test.js` checks: an integer id ... */
  lemma GetHubstairsUrlFromId(isInteger: Value -> bool)
    requires isInteger(Num(1234))
    ensures GetHubstairsUrl(EmbedParams(Undefined, Num(1234)), isInteger) == Ok("https://display.hubstairs.com/v1/1234")
  {
    Digits1234();
    IdExampleText();
  }

  lemma Digits1234()
    ensures ToStr(Num(1234)) == "1234"
  {
    Digits123();
    assert NatToString(1234) == NatToString(123) + [DigitChar(4)];
    assert "123" + ['4'] == "1234";
  }

  lemma Digits123()
    ensures NatToString(123) == "123"
  {
    Digits12();
  }

  lemma Digits12()
    ensures NatToString(12) == "12"
  {
    assert NatToString(1) == "1";
  }

  lemma IdExampleText()
    ensures DisplayBase + "1234" == "https://display.hubstairs.com/v1/1234"
  {
    assert "https://display.hubstairs.com/v1/" + "1234" == "https://display.hubstairs.com/v1/1234";
  }

  /** ... and an `http:` display URL, which is upgraded to `https:`. */
  lemma GetHubstairsUrlFromUrl(isInteger: Value -> bool)
    requires !isInteger(Str("http://display.hubstairs.com/v1/1234"))
    ensures GetHubstairsUrl(EmbedParams(Str("http://display.hubstairs.com/v1/1234"), Undefined), isInteger)
         == Ok("https://display.hubstairs.com/v1/1234")
  {
    UrlExampleText();
    ShapeIsRecognised(UrlSplit("http:", ".", "", "/v1/1234"));
    UpgradeExampleText();
    UrlParamUpgraded("http://display.hubstairs.com/v1/1234", isInteger);
  }

  /** A Hubstairs `http:` URL passed as `url` comes back with the scheme upgraded. */
  lemma UrlParamUpgraded(u: string, isInteger: Value -> bool)
    requires IsHubstairsUrl(u) && StartsWith(u, "http:") && !isInteger(Str(u))
    ensures GetHubstairsUrl(EmbedParams(Str(u), Undefined), isInteger) == Ok("https:" + u[5..])
  {
    UpgradeToHttps(u);
  }

  lemma UrlExampleText()
    ensures Joined(UrlSplit("http:", ".", "", "/v1/1234")) == "http://display.hubstairs.com/v1/1234"
  {
    AppendEmpty("http:" + SlashDisplay + "." + HostName);
    assert "http:" + "//display" + "." + "hubstairs.com" + "/v1/1234" == "http://display.hubstairs.com/v1/1234";
  }

  lemma UpgradeExampleText()
    ensures StartsWith("http://display.hubstairs.com/v1/1234", "http:")
    ensures "https:" + "http://display.hubstairs.com/v1/1234"[5..] == "https://display.hubstairs.com/v1/1234"
  {
    HttpExampleSplit();
    SliceAppend("http:", "//display.hubstairs.com/v1/1234");
    HttpsExampleSplit();
  }

  lemma HttpExampleSplit()
    ensures "http://display.hubstairs.com/v1/1234" == "http:" + "//display.hubstairs.com/v1/1234"
  {
  }

  lemma HttpsExampleSplit()
    ensures "https:" + "//display.hubstairs.com/v1/1234" == "https://display.hubstairs.com/v1/1234"
  {
  }
}
