/**
 * The browser fingerprint of the chat client (client/src/services/fingerprint.ts): user-agent
 * classification by ordered substring tests and version patterns, a 32-bit rolling hash over the
 * joined device characteristics, and a per-session cache. The browser's own values (navigator,
 * screen, storage probes, time zone) are a parameter.
 */
module Fingerprint {
  import opened Wrappers
  import opened JsValue
  import opened JsText

  /*
   * The version patterns as scanners. Each pattern is a literal prefix (or a choice of prefixes)
   * followed by a capture group of one of three shapes; JavaScript returns the group of the
   * leftmost match, which is what Search computes.
   */

  /** `\d+\.\d+`, `\d+[._]\d+` and `\d+[._]\d+[._]?\d*`. */
  datatype Group = DotPair | SepPair | SepTriple

  predicate IsSep(c: char) {
    c == '.' || c == '_'
  }

  /** Where the capture group `p` ends when it matches at `j`. Digit runs are maximal, as greedy matching makes them. */
  function GroupEnd(s: string, j: nat, p: Group): (r: Option<nat>)
    requires j <= |s|
    ensures r.Some? ==> j < r.value <= |s|
  {
    var a := DigitRun(s, j);
    if a == 0 || j + a == |s| then None
    else if !(if p == DotPair then s[j + a] == '.' else IsSep(s[j + a])) then None
    else
      var b := DigitRun(s, j + a + 1);
      if b == 0 then None
      else if p != SepTriple then Some(j + a + 1 + b)
      else
        var k := j + a + 1 + b;
        if k < |s| && IsSep(s[k]) then Some(k + 1 + DigitRun(s, k + 1)) else Some(k)
  }

  /** The group of a match starting at `i`, trying the prefixes in order. */
  function MatchAt(s: string, prefixes: seq<string>, p: Group, i: nat): Option<string>
    requires i <= |s|
  {
    if |prefixes| == 0 then None
    else
      var j := i + |prefixes[0]|;
      if OccursAt(s, prefixes[0], i) && GroupEnd(s, j, p).Some? then Some(s[j..GroupEnd(s, j, p).value])
      else MatchAt(s, prefixes[1..], p, i)
  }

  /** `s.match(re)?.[1]` from position `from` on: the group of the leftmost match. */
  function Search(s: string, prefixes: seq<string>, p: Group, from: nat): (r: Option<string>)
    requires from <= |s|
    decreases |s| - from
    ensures r.Some? ==> exists i :: from <= i <= |s| && MatchAt(s, prefixes, p, i) == r &&
                                    forall k :: from <= k < i ==> MatchAt(s, prefixes, p, k).None?
    ensures r.None? ==> forall k :: from <= k <= |s| ==> MatchAt(s, prefixes, p, k).None?
  {
    if MatchAt(s, prefixes, p, from).Some? then MatchAt(s, prefixes, p, from)
    else if from == |s| then None
    else Search(s, prefixes, p, from + 1)
  }

  function Find(s: string, prefix: string, p: Group): Option<string> {
    Search(s, [prefix], p, 0)
  }

  datatype BrowserInfo = BrowserInfo(browser: string, version: string)

  /** `parseBrowserInfo(userAgent)`: the first family whose test passes, with its version or "Unknown". */
  function ParseBrowserInfo(ua: string): (r: BrowserInfo)
    // the families, tested in order
    ensures r.browser == "Chrome" <==> Includes(ua, "Chrome")
    ensures r.browser == "Firefox" <==> !Includes(ua, "Chrome") && Includes(ua, "Firefox")
    ensures r.browser == "Safari" <==> !Includes(ua, "Chrome") && !Includes(ua, "Firefox") && Includes(ua, "Safari")
    ensures r.browser == "Edge" <==>
              !Includes(ua, "Chrome") && !Includes(ua, "Firefox") && !Includes(ua, "Safari") && Includes(ua, "Edge")
    ensures r.browser == "Internet Explorer" <==>
              !Includes(ua, "Chrome") && !Includes(ua, "Firefox") && !Includes(ua, "Safari") && !Includes(ua, "Edge") &&
              (Includes(ua, "MSIE") || Includes(ua, "Trident"))
    ensures r.browser == "Unknown" <==>
              !Includes(ua, "Chrome") && !Includes(ua, "Firefox") && !Includes(ua, "Safari") && !Includes(ua, "Edge") &&
              !Includes(ua, "MSIE") && !Includes(ua, "Trident")
    // the version: the leftmost match of the family's pattern, "Unknown" when it has none
    ensures r.browser == "Chrome" ==> r.version == Find(ua, "Chrome/", DotPair).GetOr("Unknown")
    ensures r.browser == "Firefox" ==> r.version == Find(ua, "Firefox/", DotPair).GetOr("Unknown")
    ensures r.browser == "Safari" ==> r.version == Find(ua, "Version/", DotPair).GetOr("Unknown")
    ensures r.browser == "Edge" ==> r.version == Find(ua, "Edge/", DotPair).GetOr("Unknown")
    ensures r.browser == "Internet Explorer" ==> r.version == Search(ua, ["MSIE ", "rv:"], DotPair, 0).GetOr("Unknown")
    ensures r.browser == "Unknown" ==> r.version == "Unknown"
  {
    if Includes(ua, "Chrome") then BrowserInfo("Chrome", Find(ua, "Chrome/", DotPair).GetOr("Unknown"))
    else if Includes(ua, "Firefox") then BrowserInfo("Firefox", Find(ua, "Firefox/", DotPair).GetOr("Unknown"))
    else if Includes(ua, "Safari") && !Includes(ua, "Chrome") then BrowserInfo("Safari", Find(ua, "Version/", DotPair).GetOr("Unknown"))
    else if Includes(ua, "Edge") then BrowserInfo("Edge", Find(ua, "Edge/", DotPair).GetOr("Unknown"))
    else if Includes(ua, "MSIE") || Includes(ua, "Trident") then
      BrowserInfo("Internet Explorer", Search(ua, ["MSIE ", "rv:"], DotPair, 0).GetOr("Unknown"))
    else BrowserInfo("Unknown", "Unknown")
  }

  /** A family is recognised even when its version pattern does not match: the version stays "Unknown". */
  lemma ChromeWithoutVersion()
    ensures ParseBrowserInfo("Chrome") == BrowserInfo("Chrome", "Unknown")
  {
    assert OccursAt("Chrome", "Chrome", 0);
    var s := "Chrome";
    forall k | 0 <= k <= |s|
      ensures MatchAt(s, ["Chrome/"], DotPair, k).None?
    {
      assert !OccursAt(s, "Chrome/", k);
    }
  }

  /** The version is the digits around the first dot after the family's marker. */
  lemma ChromeVersion()
    ensures ParseBrowserInfo("Chrome/12.34") == BrowserInfo("Chrome", "12.34")
  {
    var s := "Chrome/12.34";
    assert OccursAt(s, "Chrome", 0);
    assert OccursAt(s, "Chrome/", 0);
    assert DigitRun(s, 7) == 2;
    assert s[9] == '.';
    assert DigitRun(s, 10) == 2;
    assert GroupEnd(s, 7, DotPair) == Some(12);
    assert s[7..12] == "12.34";
    assert MatchAt(s, ["Chrome/"], DotPair, 0) == Some("12.34");
  }

  /** `versionMap[ntVersion] || ntVersion`. */
  function WindowsVersionName(nt: string): (r: string)
    ensures nt !in {"10.0", "6.3", "6.2", "6.1", "6.0", "5.1"} ==> r == nt
  {
    if nt == "10.0" then "10"
    else if nt == "6.3" then "8.1"
    else if nt == "6.2" then "8"
    else if nt == "6.1" then "7"
    else if nt == "6.0" then "Vista"
    else if nt == "5.1" then "XP"
    else nt
  }

  /** The fixed table of Windows NT versions. */
  lemma WindowsTable()
    ensures WindowsVersionName("10.0") == "10" && WindowsVersionName("6.3") == "8.1"
    ensures WindowsVersionName("6.2") == "8" && WindowsVersionName("6.1") == "7"
    ensures WindowsVersionName("6.0") == "Vista" && WindowsVersionName("5.1") == "XP"
    ensures WindowsVersionName("11.0") == "11.0"
  {
  }

  datatype OsInfo = OsInfo(os: string, version: string)

  /** The matched version with every `_` turned into `.`. */
  function Dotted(m: Option<string>): (r: string)
    ensures m.None? ==> r == "Unknown"
    ensures m.Some? ==> |r| == |m.value| && forall i :: 0 <= i < |r| ==> r[i] != '_'
    ensures m.Some? ==> forall i :: 0 <= i < |r| && m.value[i] != '_' ==> r[i] == m.value[i]
  {
    if m.Some? then ReplaceAll(m.value, '_', '.') else "Unknown"
  }

  /** `parseOSInfo(userAgent)`. */
  function ParseOSInfo(ua: string): (r: OsInfo)
    ensures Includes(ua, "Windows NT") <==> r.os == "Windows"
    ensures r.os == "macOS" <==> !Includes(ua, "Windows NT") && Includes(ua, "Mac OS X")
    ensures r.os == "Linux" <==> !Includes(ua, "Windows NT") && !Includes(ua, "Mac OS X") && Includes(ua, "Linux")
    ensures r.os == "Android" <==>
              !Includes(ua, "Windows NT") && !Includes(ua, "Mac OS X") && !Includes(ua, "Linux") && Includes(ua, "Android")
    ensures r.os == "iOS" <==>
              !Includes(ua, "Windows NT") && !Includes(ua, "Mac OS X") && !Includes(ua, "Linux") && !Includes(ua, "Android") &&
              (Includes(ua, "iOS") || Includes(ua, "iPhone") || Includes(ua, "iPad"))
    ensures r.os == "Unknown" <==>
              !Includes(ua, "Windows NT") && !Includes(ua, "Mac OS X") && !Includes(ua, "Linux") && !Includes(ua, "Android") &&
              !Includes(ua, "iOS") && !Includes(ua, "iPhone") && !Includes(ua, "iPad")
    // the version of each system
    ensures r.os == "Windows" ==>
              r.version == (if Find(ua, "Windows NT ", DotPair).Some? then WindowsVersionName(Find(ua, "Windows NT ", DotPair).value) else "Unknown")
    ensures r.os == "macOS" ==> r.version == Dotted(Find(ua, "Mac OS X ", SepTriple))
    ensures r.os == "Linux" || r.os == "Unknown" ==> r.version == "Unknown"
    ensures r.os == "Android" ==> r.version == Find(ua, "Android ", DotPair).GetOr("Unknown")
    ensures r.os == "iOS" ==> r.version == Dotted(Find(ua, "OS ", SepPair))
    ensures r.os == "macOS" || r.os == "iOS" ==> forall i :: 0 <= i < |r.version| ==> r.version[i] != '_'
  {
    if Includes(ua, "Windows NT") then
      OsInfo("Windows", match Find(ua, "Windows NT ", DotPair) case Some(nt) => WindowsVersionName(nt) case None => "Unknown")
    else if Includes(ua, "Mac OS X") then OsInfo("macOS", Dotted(Find(ua, "Mac OS X ", SepTriple)))
    else if Includes(ua, "Linux") then OsInfo("Linux", "Unknown")
    else if Includes(ua, "Android") then OsInfo("Android", Find(ua, "Android ", DotPair).GetOr("Unknown"))
    else if Includes(ua, "iOS") || Includes(ua, "iPhone") || Includes(ua, "iPad") then OsInfo("iOS", Dotted(Find(ua, "OS ", SepPair)))
    else OsInfo("Unknown", "Unknown")
  }

  /** Android user agents name Linux, so the Android branch is reached only when Linux is absent. */
  lemma AndroidIsLinux(ua: string)
    requires Includes(ua, "Android") && Includes(ua, "Linux") && !Includes(ua, "Windows NT") && !Includes(ua, "Mac OS X")
    ensures ParseOSInfo(ua).os == "Linux"
  {
  }

  /** iPhone user agents say "like Mac OS X", so they are classed macOS. */
  lemma IPhoneIsMacOS(ua: string)
    requires Includes(ua, "iPhone") && Includes(ua, "Mac OS X") && !Includes(ua, "Windows NT")
    ensures ParseOSInfo(ua).os == "macOS"
  {
  }

  /** Lower-casing keeps an occurrence: what the pattern matches in one spelling it matches in any. */
  lemma LowerKeepsOccurrence(ua: string, sub: string, lower: string)
    requires Lower(sub) == lower
    ensures Includes(ua, sub) ==> Includes(Lower(ua), lower)
  {
    if Includes(ua, sub) {
      var i: nat :| i <= |ua| && OccursAt(ua, sub, i);
      assert Lower(ua)[i..i + |sub|] == Lower(sub);
      assert OccursAt(Lower(ua), lower, i);
    }
  }

  /** `/Mobi|Android|iPhone|iPad|iPod/i.test(ua)`. */
  function IsMobile(ua: string): (b: bool)
    ensures (Includes(ua, "Mobi") || Includes(ua, "Android") || Includes(ua, "iPhone") ||
             Includes(ua, "iPad") || Includes(ua, "iPod")) ==> b
  {
    LowerKeepsOccurrence(ua, "Mobi", "mobi");
    LowerKeepsOccurrence(ua, "Android", "android");
    LowerKeepsOccurrence(ua, "iPhone", "iphone");
    LowerKeepsOccurrence(ua, "iPad", "ipad");
    LowerKeepsOccurrence(ua, "iPod", "ipod");
    IncludesIgnoreCase(ua, "mobi") || IncludesIgnoreCase(ua, "android") || IncludesIgnoreCase(ua, "iphone") ||
    IncludesIgnoreCase(ua, "ipad") || IncludesIgnoreCase(ua, "ipod")
  }

  /** `/iPad|Android/i.test(ua) && !/Mobile/i.test(ua)`. */
  function IsTablet(ua: string): (b: bool)
    ensures b ==> IsMobile(ua)
    ensures Includes(ua, "Mobile") ==> !b
    ensures (Includes(ua, "iPad") || Includes(ua, "Android")) && !IncludesIgnoreCase(ua, "mobile") ==> b
  {
    LowerKeepsOccurrence(ua, "Mobile", "mobile");
    LowerKeepsOccurrence(ua, "iPad", "ipad");
    LowerKeepsOccurrence(ua, "Android", "android");
    (IncludesIgnoreCase(ua, "ipad") || IncludesIgnoreCase(ua, "android")) && !IncludesIgnoreCase(ua, "mobile")
  }

  /** The `device` field: "Tablet" for tablets, "Mobile" for other mobile user agents, else "Desktop". */
  function DeviceOf(ua: string): (r: string)
    ensures r == "Tablet" <==> IsTablet(ua)
    ensures r == "Mobile" <==> IsMobile(ua) && !IsTablet(ua)
    ensures r == "Desktop" <==> !IsMobile(ua)
  {
    if IsMobile(ua) then (if IsTablet(ua) then "Tablet" else "Mobile") else "Desktop"
  }

  function DeviceTypeOf(ua: string): (r: string)
    ensures r == "Mobile" || r == "Desktop"
  {
    if IsMobile(ua) then "Mobile" else "Desktop"
  }

  /** A tablet user agent is always also a mobile one, so the device is "Tablet" exactly for tablets. */
  lemma TabletIff(ua: string)
    ensures DeviceOf(ua) == "Tablet" <==> IsTablet(ua)
    ensures DeviceOf(ua) == "Desktop" <==> DeviceTypeOf(ua) == "Desktop"
  {
  }

  /** What the browser reports: navigator, screen, storage probes, clock offset and time zone. */
  datatype BrowserContext = BrowserContext(
    userAgent: string,
    language: string,
    colorDepth: int,
    width: int,
    height: int,
    timezoneOffset: int,
    hasSessionStorage: bool,
    hasLocalStorage: bool,
    hasIndexedDb: bool,
    addBehaviorType: string,
    openDatabaseType: string,
    cpuClass: Option<string>,
    platform: string,
    hardwareConcurrency: Option<int>,
    timeZone: string)

  function BoolText(b: bool): string {
    if b then "true" else "false"
  }

  /** How `join` writes a value that may be undefined: as the empty string. */
  function OptText(s: Option<string>): string {
    s.GetOr("")
  }

  function OptIntText(n: Option<int>): string {
    if n.Some? then IntToDecimal(n.value) else ""
  }

  /** The fourteen characteristics, as `join` writes them. */
  function Components(b: BrowserContext): (r: seq<string>)
    ensures |r| == 14 && r[0] == b.userAgent
  {
    [b.userAgent, b.language, IntToDecimal(b.colorDepth), IntToDecimal(b.width), IntToDecimal(b.height),
     IntToDecimal(b.timezoneOffset), BoolText(b.hasSessionStorage), BoolText(b.hasLocalStorage),
     BoolText(b.hasIndexedDb), b.addBehaviorType, b.openDatabaseType, OptText(b.cpuClass), b.platform,
     OptIntText(b.hardwareConcurrency)]
  }

  function ComponentString(b: BrowserContext): string {
    Join(Components(b), "###")
  }

  /*
   * The hash works on the UTF-16 code units `charCodeAt` returns and on 32-bit signed integers,
   * written out with an explicit wrap-around.
   */

  const TwoTo31 := 0x8000_0000
  const TwoTo32 := 0x1_0000_0000

  /** ECMAScript ToInt32: the value modulo 2^32, taken into [-2^31, 2^31). */
  function ToInt32(x: int): (r: int)
    ensures -TwoTo31 <= r < TwoTo31
    ensures (r - x) % TwoTo32 == 0
  {
    var m := x % TwoTo32;
    if m >= TwoTo31 then m - TwoTo32 else m
  }

  /** Values equal modulo 2^32 have the same ToInt32. */
  lemma ToInt32Congruent(a: int, b: int)
    requires (a - b) % TwoTo32 == 0
    ensures ToInt32(a) == ToInt32(b)
  {
    var k := (a - b) / TwoTo32;
    assert a == b + k * TwoTo32;
    assert a % TwoTo32 == b % TwoTo32;
  }

  /** The UTF-16 code units of one character: itself, or a surrogate pair above the Basic Multilingual Plane. */
  function UnitsOf(c: char): (r: seq<int>)
    ensures |r| == 1 || |r| == 2
    ensures forall i :: 0 <= i < |r| ==> 0 <= r[i] < 0x10000
  {
    var v := c as int;
    if v < 0x10000 then [v] else [0xD800 + (v - 0x10000) / 0x400, 0xDC00 + (v - 0x10000) % 0x400]
  }

  /** The UTF-16 code units of a string, the units `length` counts and `charCodeAt` reads. */
  function CodeUnits(s: string): (r: seq<int>)
    ensures |r| >= |s|
    ensures forall i :: 0 <= i < |r| ==> 0 <= r[i] < 0x10000
  {
    if |s| == 0 then [] else CodeUnits(s[..|s| - 1]) + UnitsOf(s[|s| - 1])
  }

  /** One step of the rolling hash, stated as the multiplication by 31 it is. */
  function Step(h: int, c: int): int {
    ToInt32(31 * h + c)
  }

  /** The hash of a sequence of code units: 0, then one step per unit. */
  function HashOf(units: seq<int>): (h: int)
    ensures -TwoTo31 <= h < TwoTo31
  {
    if |units| == 0 then 0 else Step(HashOf(units[..|units| - 1]), units[|units| - 1])
  }

  /** `((hash << 5) - hash) + char` followed by `hash & hash` is one step of the multiply-by-31 hash. */
  lemma ShiftStepIsTimes31(h: int, c: int)
    ensures ToInt32(ToInt32(h * 32) - h + c) == Step(h, c)
  {
    var s := ToInt32(h * 32);
    assert (s - h * 32) % TwoTo32 == 0;
    assert (s - h + c) - (31 * h + c) == s - h * 32;
    ToInt32Congruent(s - h + c, 31 * h + c);
  }

  /** The hash loop over the component string. */
  method HashString(s: string) returns (hash: int)
    ensures hash == HashOf(CodeUnits(s))
  {
    var units := CodeUnits(s);
    hash := 0;
    var i := 0;
    while i < |units|
      invariant 0 <= i <= |units|
      invariant hash == HashOf(units[..i])
    {
      var c := units[i];
      ShiftStepIsTimes31(hash, c);
      hash := ToInt32(hash * 32) - hash + c;
      hash := ToInt32(hash);
      assert units[..i + 1][..i] == units[..i];
      i := i + 1;
    }
    assert units[..i] == units;
  }

  /** The hash of a single ASCII character is its code. */
  lemma HashOfOneUnit(c: int)
    requires 0 <= c < 0x10000
    ensures HashOf([c]) == c
  {
    assert [c][..0] == [];
  }

  /** `Math.abs(hash).toString(16)`: the lower-case hexadecimal numeral of |h|, at most eight digits. */
  function FingerprintText(h: int): (r: string)
    requires -TwoTo31 <= h < TwoTo31
    ensures 1 <= |r| <= 8
    ensures forall i :: 0 <= i < |r| ==> IsHexDigit(r[i])
    ensures HexValue(r) == (if h < 0 then -h else h)
    ensures r[0] != '0' || h == 0
  {
    var a := if h < 0 then -h else h;
    assert Pow16(8) == TwoTo32;
    HexLength(a, 8);
    NatToHex(a)
  }

  /** Taking the absolute value merges each hash with its negation. */
  lemma SignLost(h: int)
    requires -TwoTo31 < h < TwoTo31
    ensures FingerprintText(h) == FingerprintText(-h)
  {
  }

  datatype FingerprintData = FingerprintData(
    fingerprint: string,
    browser: string,
    browserVersion: string,
    os: string,
    osVersion: string,
    device: string,
    deviceType: string,
    deviceVendor: string,
    cpu: string,
    screenResolution: string,
    colorDepth: int,
    timezone: string,
    language: string,
    userAgent: string)

  /** `${hardwareConcurrency} cores` when that number is truthy, else "Unknown". */
  function CpuText(n: Option<int>): (r: string)
    ensures r == "Unknown" <==> n.None? || n.value == 0
    ensures n.Some? && n.value > 0 ==>
              |r| > 6 && r[|r| - 6..] == " cores" && AllDigits(r[..|r| - 6]) && DigitsValue(r[..|r| - 6]) == n.value
  {
    if n.Some? && n.value != 0 then
      var r := IntToDecimal(n.value) + " cores";
      assert r[|r| - 1] == 's' && r[..|r| - 6] == IntToDecimal(n.value);
      r
    else "Unknown"
  }

  /** What `generateFingerprint()` returns for the browser values `b`. */
  function FingerprintOf(b: BrowserContext): (r: FingerprintData)
    ensures 1 <= |r.fingerprint| <= 8
    ensures r.deviceType == "Mobile" || r.deviceType == "Desktop"
    ensures r.device == "Tablet" <==> IsTablet(b.userAgent)
    ensures r.deviceVendor == "Unknown" && r.userAgent == b.userAgent
  {
    TabletIff(b.userAgent);
    var browser := ParseBrowserInfo(b.userAgent);
    var os := ParseOSInfo(b.userAgent);
    FingerprintData(
      FingerprintText(HashOf(CodeUnits(ComponentString(b)))),
      browser.browser, browser.version, os.os, os.version,
      DeviceOf(b.userAgent), DeviceTypeOf(b.userAgent), "Unknown",
      CpuText(b.hardwareConcurrency),
      IntToDecimal(b.width) + "x" + IntToDecimal(b.height),
      b.colorDepth, b.timeZone, b.language, b.userAgent)
  }

  /** `generateFingerprint()`, with its hash loop. */
  method GenerateFingerprint(b: BrowserContext) returns (data: FingerprintData)
    ensures data == FingerprintOf(b)
  {
    var hash := HashString(ComponentString(b));
    var browser := ParseBrowserInfo(b.userAgent);
    var os := ParseOSInfo(b.userAgent);
    data := FingerprintData(
      FingerprintText(hash),
      browser.browser, browser.version, os.os, os.version,
      DeviceOf(b.userAgent), DeviceTypeOf(b.userAgent), "Unknown",
      CpuText(b.hardwareConcurrency),
      IntToDecimal(b.width) + "x" + IntToDecimal(b.height),
      b.colorDepth, b.timeZone, b.language, b.userAgent);
  }

  /** The module-level cache behind `getFingerprint()`. */
  class FingerprintCache {
    var cached: Option<FingerprintData>
    /** How many times a fingerprint was generated. */
    ghost var generations: nat

    ghost predicate Valid()
      reads this
    {
      generations <= 1 && (cached.None? <==> generations == 0)
    }

    constructor()
      ensures Valid() && cached.None? && generations == 0
    {
      cached := None;
      generations := 0;
    }

    /**
     * `getFingerprint()`: generate from the browser values of the moment on the first call, and
     * return the cached value on every later call, whatever the browser reports then.
     */
    method GetFingerprint(b: BrowserContext) returns (data: FingerprintData)
      requires Valid()
      modifies this
      ensures Valid() && cached == Some(data)
      ensures old(cached).Some? ==> data == old(cached).value && generations == old(generations)
      ensures old(cached).None? ==> data == FingerprintOf(b) && generations == 1
    {
      if cached.None? {
        data := GenerateFingerprint(b);
        cached := Some(data);
        generations := generations + 1;
      } else {
        data := cached.value;
      }
    }
  }

  /** Two calls on one cache give the same value and generate once. */
  method TwoCalls(b1: BrowserContext, b2: BrowserContext) returns (first: FingerprintData, second: FingerprintData)
    ensures first == second == FingerprintOf(b1)
  {
    var cache := new FingerprintCache();
    first := cache.GetFingerprint(b1);
    second := cache.GetFingerprint(b2);
    assert cache.generations == 1;
  }
}
