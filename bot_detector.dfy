/** `BotDetector.detect` (src/botDetector/initDetect.ts): a weighted checklist of
    browser signals. The browser probes themselves (navigator fields, the
    permissions and storage APIs, the canvas read-back, the VPN fetch) are
    inputs; this module decides what they add up to. */
module BotDetector {

  import opened Interfaces
  import Text

  /** `navigator.permissions.query({name: 'notifications'})`: a state, or a throw. */
  datatype PermissionProbe = PermissionState(state: string) | PermissionsMissing

  /** The canvas read-back: no 2D context, the sum of the pixel bytes, or a throw. */
  datatype CanvasProbe = NoContext | PixelSum(sum: int) | CanvasThrew

  /** `navigator.storage.estimate()`: not available, the reported quota, or a throw. */
  datatype StorageProbe = NoEstimateApi | Estimate(quota: Option<int>) | EstimateFailed

  /** The VPN endpoint: the fetch or the JSON parse failed, or the truthiness of `data.vpn`. */
  datatype VpnProbe = VpnUnreachable | VpnAnswer(vpn: bool)

  datatype Signals = Signals(
    webdriver: bool,                 // truthiness of navigator.webdriver
    userAgent: string,
    pluginCount: Option<nat>,        // navigator.plugins?.length
    maxTouchPoints: Option<int>,
    hardwareConcurrency: Option<int>,
    languageCount: Option<nat>,      // navigator.languages?.length
    permission: PermissionProbe,
    canvas: CanvasProbe,
    storage: StorageProbe,
    vpnCheckUrl: string,             // constructor argument, '' when none
    vpnProbe: VpnProbe)

  datatype BotDetectionResult = BotDetectionResult(
    isBot: bool,
    score: int,
    reasons: seq<string>,
    incognito: bool,
    vpn: Option<bool>)

  const BOT_THRESHOLD: int := 40
  const MAX_SCORE: int := 100
  /** 120 MiB: quotas below this are taken as a private window. */
  const INCOGNITO_QUOTA: int := 120 * 1024 * 1024

  const BOT_WORDS: seq<string> :=
    ["headless", "bot", "crawler", "spider", "phantom", "scrapy", "selenium", "playwright"]

  /** `/headless|bot|.../.test(ua.toLowerCase())`. The words are lower-case ASCII,
      so folding only the ASCII letters finds the same matches. */
  predicate UserAgentIndicatesBot(ua: string)
  {
    exists k :: 0 <= k < |BOT_WORDS| && Text.Contains(Text.LowerAsciiString(ua), BOT_WORDS[k])
  }

  /** `detectCanvasAnomaly`. */
  function CanvasAnomaly(probe: CanvasProbe): (anomaly: bool)
    ensures probe.NoContext? ==> anomaly
    ensures probe.CanvasThrew? ==> !anomaly
    ensures probe.PixelSum? ==> (anomaly <==> probe.sum < 50000 || probe.sum > 100000)
  {
    match probe
    case NoContext => true
    case PixelSum(sum) => sum < 50000 || sum > 100000
    case CanvasThrew => false
  }

  /** `detectIncognito`: `!!quota && quota < 120 * 1024 * 1024`. */
  function Incognito(probe: StorageProbe): (incognito: bool)
    ensures incognito <==> probe.Estimate? && probe.quota.Some? &&
                           probe.quota.value != 0 && probe.quota.value < INCOGNITO_QUOTA
  {
    match probe
    case Estimate(Some(quota)) => quota != 0 && quota < INCOGNITO_QUOTA
    case _ => false
  }

  /** `vpn`: null unless a check URL is configured and its answer was read. */
  function Vpn(s: Signals): (vpn: Option<bool>)
    ensures vpn.Some? <==> s.vpnCheckUrl != "" && s.vpnProbe.VpnAnswer?
    ensures vpn.Some? ==> vpn.value == s.vpnProbe.vpn
  {
    if s.vpnCheckUrl != "" && s.vpnProbe.VpnAnswer? then Some(s.vpnProbe.vpn) else None
  }

  /** The signals of the checklist, one predicate each, in the order `detect` tests them. */
  predicate NoPlugins(s: Signals) { (match s.pluginCount case Some(n) => n case None => 0) == 0 }
  predicate NoTouch(s: Signals) { s.maxTouchPoints == Some(0) }
  /** `hardwareConcurrency && hardwareConcurrency < 2`: 0 or absent is falsy and does not count. */
  predicate LowConcurrency(s: Signals)
  {
    s.hardwareConcurrency.Some? && s.hardwareConcurrency.value != 0 && s.hardwareConcurrency.value < 2
  }
  predicate NoLanguages(s: Signals) { s.languageCount.None? || s.languageCount == Some(0) }
  predicate NotificationsDenied(s: Signals) { s.permission == PermissionState("denied") }
  predicate PermissionsApiMissing(s: Signals) { s.permission.PermissionsMissing? }
  predicate VpnDetected(s: Signals) { Vpn(s) == Some(true) }

  /** The weight a signal adds: `w` when it fired, otherwise nothing. */
  function Weight(fired: bool, w: nat): nat
  {
    if fired then w else 0
  }

  /** `rs` with the reason of one more signal pushed when that signal fired. */
  function Extend(rs: seq<string>, fired: bool, reason: string): (r: seq<string>)
    ensures |r| == |rs| + (if fired then 1 else 0)
  {
    if fired then rs + [reason] else rs
  }

  /** The checks `detect` reads straight off `navigator`, in the order it makes them. */
  function NavigatorScore(s: Signals): nat
  {
    Weight(s.webdriver, 40) + Weight(UserAgentIndicatesBot(s.userAgent), 40) + Weight(NoPlugins(s), 10)
    + Weight(NoTouch(s), 5) + Weight(LowConcurrency(s), 5) + Weight(NoLanguages(s), 5)
  }

  function NavigatorReasons(s: Signals): seq<string>
  {
    var rs := Extend([], s.webdriver, "webdriver detected");
    var rs := Extend(rs, UserAgentIndicatesBot(s.userAgent), "user agent indicates bot");
    var rs := Extend(rs, NoPlugins(s), "no plugins");
    var rs := Extend(rs, NoTouch(s), "no touch points");
    var rs := Extend(rs, LowConcurrency(s), "low hardware concurrency");
    Extend(rs, NoLanguages(s), "no languages")
  }

  /** The checks that wait on a browser API: permissions, canvas, storage, VPN. */
  function ProbeScore(s: Signals): nat
  {
    Weight(NotificationsDenied(s), 5) + Weight(PermissionsApiMissing(s), 5)
    + Weight(CanvasAnomaly(s.canvas), 20) + Weight(Incognito(s.storage), 5) + Weight(VpnDetected(s), 20)
  }

  function ProbeReasons(s: Signals): seq<string>
  {
    var rs := Extend([], NotificationsDenied(s), "notifications denied");
    var rs := Extend(rs, PermissionsApiMissing(s), "permissions api missing");
    var rs := Extend(rs, CanvasAnomaly(s.canvas), "canvas anomaly detected (possible headless)");
    var rs := Extend(rs, Incognito(s.storage), "incognito mode detected");
    Extend(rs, VpnDetected(s), "vpn detected")
  }

  /** The raw score: the sum of the weights of the signals that fired. */
  function RawScore(s: Signals): nat
  {
    NavigatorScore(s) + ProbeScore(s)
  }

  /** The reasons of the signals that fired, in checklist order. */
  function Reasons(s: Signals): seq<string>
  {
    NavigatorReasons(s) + ProbeReasons(s)
  }

  function Min(a: int, b: int): int
  {
    if a <= b then a else b
  }

  /** What `detect` resolves to. */
  function Result(s: Signals): BotDetectionResult
  {
    var score := RawScore(s);
    BotDetectionResult(score >= BOT_THRESHOLD, Min(score, MAX_SCORE), Reasons(s), Incognito(s.storage), Vpn(s))
  }

  /** One signal of `detect`: when it fired, push its reason and add its weight. */
  method Note(reasons: seq<string>, score: int, fired: bool, reason: string, weight: nat)
    returns (reasons': seq<string>, score': int)
    ensures reasons' == Extend(reasons, fired, reason)
    ensures score' == score + Weight(fired, weight)
  {
    reasons', score' := reasons, score;
    if fired {
      reasons' := reasons' + [reason];
      score' := score' + weight;
    }
  }

  /** The first part of `detect`: the `navigator` checks. */
  method NavigatorChecks(s: Signals) returns (reasons: seq<string>, score: int)
    ensures reasons == NavigatorReasons(s) && score == NavigatorScore(s)
  {
    reasons, score := [], 0;
    reasons, score := Note(reasons, score, s.webdriver, "webdriver detected", 40);
    reasons, score := Note(reasons, score, UserAgentIndicatesBot(s.userAgent), "user agent indicates bot", 40);
    reasons, score := Note(reasons, score, NoPlugins(s), "no plugins", 10);
    reasons, score := Note(reasons, score, NoTouch(s), "no touch points", 5);
    reasons, score := Note(reasons, score, LowConcurrency(s), "low hardware concurrency", 5);
    reasons, score := Note(reasons, score, NoLanguages(s), "no languages", 5);
  }

  /** The second part of `detect`: the probes, which also give `incognito` and `vpn`. */
  method ProbeChecks(s: Signals) returns (reasons: seq<string>, score: int, incognito: bool, vpn: Option<bool>)
    ensures reasons == ProbeReasons(s) && score == ProbeScore(s)
    ensures incognito == Incognito(s.storage) && vpn == Vpn(s)
  {
    reasons, score := [], 0;
    // the permission query either resolves (denied or not) or throws
    reasons, score := Note(reasons, score, NotificationsDenied(s), "notifications denied", 5);
    reasons, score := Note(reasons, score, PermissionsApiMissing(s), "permissions api missing", 5);
    reasons, score := Note(reasons, score, CanvasAnomaly(s.canvas), "canvas anomaly detected (possible headless)", 20);
    incognito := Incognito(s.storage);
    reasons, score := Note(reasons, score, incognito, "incognito mode detected", 5);
    vpn := None;
    if s.vpnCheckUrl != "" {
      match s.vpnProbe {
        case VpnAnswer(v) =>
          vpn := Some(v);
        case VpnUnreachable =>
          vpn := None;
      }
    }
    reasons, score := Note(reasons, score, vpn == Some(true), "vpn detected", 20);
  }

  /** `detect`: the checklist, then the threshold and the cap. */
  method Detect(s: Signals) returns (r: BotDetectionResult)
    ensures r == Result(s)
  {
    var reasons, score := NavigatorChecks(s);
    var probeReasons, probeScore, incognito, vpn := ProbeChecks(s);
    reasons, score := reasons + probeReasons, score + probeScore;
    r := BotDetectionResult(score >= 40, Min(score, 100), reasons, incognito, vpn);
  }

  /** The reported score is the raw score capped at 100, so it lies in 0..100. */
  lemma ReportedScoreInRange(s: Signals)
    ensures 0 <= Result(s).score <= MAX_SCORE
    ensures Result(s).score == Min(RawScore(s), MAX_SCORE)
  {
  }

  /** `isBot` holds exactly when the raw score reaches the threshold, even when the
      reported score has been capped. */
  lemma IsBotIffThreshold(s: Signals)
    ensures Result(s).isBot <==> RawScore(s) >= BOT_THRESHOLD
    ensures Result(s).isBot <==> Result(s).score >= BOT_THRESHOLD
  {
  }

  /** A webdriver flag alone flags a bot, and so does a bot-like user agent alone. */
  lemma WebdriverOrAgentSuffices(s: Signals)
    requires s.webdriver || UserAgentIndicatesBot(s.userAgent)
    ensures Result(s).isBot
  {
  }

  /** Without those two, the other signals together reach the threshold only
      when the canvas check or the VPN check fires. */
  lemma MinorSignalsAlone(s: Signals)
    requires !s.webdriver && !UserAgentIndicatesBot(s.userAgent)
    requires !CanvasAnomaly(s.canvas) && !VpnDetected(s)
    ensures !Result(s).isBot
  {
  }

  /** A hardware concurrency of 0, or none reported, adds nothing. */
  lemma HardwareConcurrencyZeroIgnored(s: Signals)
    requires s.hardwareConcurrency.None? || s.hardwareConcurrency == Some(0)
    ensures !LowConcurrency(s)
  {
  }

  /** The notification check adds 5 both when it is denied and when the API is
      missing, and the two never fire together. */
  lemma PermissionChecksExclusive(s: Signals)
    ensures !(NotificationsDenied(s) && PermissionsApiMissing(s))
  {
  }

  /** Each reason stands for at least 5 points, so the score is zero exactly
      when no reason was recorded. */
  lemma ReasonsMatchScore(s: Signals)
    ensures 5 * |Reasons(s)| <= RawScore(s)
    ensures RawScore(s) == 0 <==> Reasons(s) == []
  {
  }
}
