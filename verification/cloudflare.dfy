/**
  The challenge classifier of the `Cloudflare` class: five stateless predicates over
  an HTTP response, each combining a Server-header prefix test, a status-code test
  and body-pattern tests, and the dispatcher `is_Challenge_Request` that reports the
  first predicate (in a fixed order) that holds.

  The body regular expressions are not modelled: each is an opaque matcher in the
  `Patterns` record the caller supplies. The firewall marker is a plain literal and is
  searched for concretely.
 */
module Cloudflare {
  import opened Responses
  import opened TextSearch
  import opened PyEval

  /** The opaque body matchers, one per regular expression of the source. */
  datatype Patterns = Patterns(
    challengeForm: string -> bool,       // `<form .*?="challenge-form" action="/.*?__cf_chl_jschl_tk__=\S+"`
    jschOrchestrate: string -> bool,     // `cpo.src\s*=\s*"/cdn-cgi/challenge-platform/\S+orchestrate/jsch/v1`
    chlEnter: string -> bool,            // `window._cf_chl_enter\s*[\(=]`
    captchaOrchestrate: string -> bool,  // `cpo.src\s*=\s*"/cdn-cgi/challenge-platform/\S+orchestrate/(captcha|managed)/v1`
    trkCaptchaJs: string -> bool,        // `\s*id="trk_captcha_js"`
    captchaAction: string -> bool        // `action="/\S+__cf_chl_captcha_tk__=\S+`
  )

  const CloudflarePrefix: string := "cloudflare"
  const IUAMStatuses: set<int> := {429, 503}
  const BlockedStatus: int := 403
  const FirewallMarker: string := "<span class=\"cf-error-code\">1020</span>"

  /*
   * The three kinds of check, on the response attributes
   */

  /** The Server header (`''` when not sent) starts with `cloudflare`; false when `headers` is missing. */
  predicate ServedByCloudflare(resp: Response)
  {
    match ServerHeader(resp)
    case Present(server) => IsPrefix(CloudflarePrefix, server)
    case Missing => false
  }

  predicate StatusIn(resp: Response, codes: set<int>)
  {
    resp.statusCode.Present? && resp.statusCode.value in codes
  }

  predicate BodyMatches(resp: Response, pattern: string -> bool)
  {
    resp.text.Present? && pattern(resp.text.value)
  }

  /*
   * The five predicates, with a missing attribute read as "no match"
   */

  /** `is_IUAM_Challenge`: the version 1 JavaScript ("I'm Under Attack Mode") challenge. */
  predicate IsIUAMChallenge(p: Patterns, resp: Response)
  {
    ServedByCloudflare(resp) && StatusIn(resp, IUAMStatuses) && BodyMatches(resp, p.challengeForm)
  }

  /** `is_New_IUAM_Challenge`: the version 2 JavaScript challenge; it needs both script markers. */
  predicate IsNewIUAMChallenge(p: Patterns, resp: Response)
  {
    && ServedByCloudflare(resp)
    && StatusIn(resp, IUAMStatuses)
    && BodyMatches(resp, p.jschOrchestrate)
    && BodyMatches(resp, p.chlEnter)
  }

  /** `is_Captcha_Challenge`: the version 1 captcha challenge. */
  predicate IsCaptchaChallenge(p: Patterns, resp: Response)
  {
    ServedByCloudflare(resp) && StatusIn(resp, {BlockedStatus}) && BodyMatches(resp, p.captchaAction)
  }

  /** `is_New_Captcha_Challenge`: a version 1 captcha page that also carries both version 2 markers. */
  predicate IsNewCaptchaChallenge(p: Patterns, resp: Response)
  {
    IsCaptchaChallenge(p, resp) && BodyMatches(resp, p.captchaOrchestrate) && BodyMatches(resp, p.trkCaptchaJs)
  }

  /** `is_Firewall_Blocked`: the hard "Code 1020" block page. */
  predicate IsFirewallBlocked(resp: Response)
  {
    ServedByCloudflare(resp) && StatusIn(resp, {BlockedStatus}) && resp.text.Present? && Contains(resp.text.value, FirewallMarker)
  }

  /*
   * The predicates as the interpreter evaluates them: short-circuit `and`,
   * AttributeError on a missing attribute, caught and turned into False
   */

  /** `resp.headers.get('Server', '').startswith('cloudflare')` */
  function ServerTerm(resp: Response): Eval
  {
    match resp.headers
    case Present(h) => Value(FromBool(IsPrefix(CloudflarePrefix, HeaderGet(h, ServerHeaderName, ""))))
    case Missing => RaisesAttributeError
  }

  /** `resp.status_code in codes` (or `== code` for a single code) */
  function StatusTerm(resp: Response, codes: set<int>): Eval
  {
    match resp.statusCode
    case Present(code) => Value(FromBool(code in codes))
    case Missing => RaisesAttributeError
  }

  /** `re.search(pattern, resp.text, …)`: a match object or None */
  function SearchTerm(resp: Response, pattern: string -> bool): Eval
  {
    match resp.text
    case Present(t) => Value(if pattern(t) then PyMatch else PyNone)
    case Missing => RaisesAttributeError
  }

  function IUAMAsWritten(p: Patterns, resp: Response): (v: PyValue)
    ensures v != PyTrue
    ensures Truthy(v) <==> IsIUAMChallenge(p, resp)
  {
    ReturnCatching(And(And(ServerTerm(resp), StatusTerm(resp, IUAMStatuses)), SearchTerm(resp, p.challengeForm)))
  }

  function NewIUAMAsWritten(p: Patterns, resp: Response): (v: PyValue)
    ensures v != PyTrue
    ensures Truthy(v) <==> IsNewIUAMChallenge(p, resp)
  {
    ReturnCatching(
      And(And(And(ServerTerm(resp), StatusTerm(resp, IUAMStatuses)), SearchTerm(resp, p.jschOrchestrate)),
          SearchTerm(resp, p.chlEnter)))
  }

  function CaptchaAsWritten(p: Patterns, resp: Response): (v: PyValue)
    ensures v != PyTrue
    ensures Truthy(v) <==> IsCaptchaChallenge(p, resp)
  {
    ReturnCatching(And(And(ServerTerm(resp), StatusTerm(resp, {BlockedStatus})), SearchTerm(resp, p.captchaAction)))
  }

  /** The call `self.is_Captcha_Challenge(resp)` catches its own errors, so it never raises here. */
  function NewCaptchaAsWritten(p: Patterns, resp: Response): (v: PyValue)
    ensures v != PyTrue
    ensures Truthy(v) <==> IsNewCaptchaChallenge(p, resp)
  {
    ReturnCatching(
      And(And(Value(CaptchaAsWritten(p, resp)), SearchTerm(resp, p.captchaOrchestrate)),
          SearchTerm(resp, p.trkCaptchaJs)))
  }

  function FirewallAsWritten(resp: Response): (v: PyValue)
    ensures v != PyTrue
    ensures Truthy(v) <==> IsFirewallBlocked(resp)
  {
    ReturnCatching(
      And(And(ServerTerm(resp), StatusTerm(resp, {BlockedStatus})),
          SearchTerm(resp, t => Contains(t, FirewallMarker))))
  }

  /*
   * The dispatcher
   */

  /** What `is_Challenge_Request` reports. */
  datatype Signal = Code1020 | ChallengeV2Captcha | ChallengeV2JS | ChallengeV1 | NoChallenge

  /** The four `if` statements of the dispatcher. */
  datatype Guard = FirewallGuard | NewCaptchaGuard | NewIUAMGuard | V1Guard

  /** The order in which the dispatcher tests its guards. */
  const Precedence: seq<Guard> := [FirewallGuard, NewCaptchaGuard, NewIUAMGuard, V1Guard]

  predicate Fires(p: Patterns, resp: Response, g: Guard)
  {
    match g
    case FirewallGuard => IsFirewallBlocked(resp)
    case NewCaptchaGuard => IsNewCaptchaChallenge(p, resp)
    case NewIUAMGuard => IsNewIUAMChallenge(p, resp)
    case V1Guard => IsCaptchaChallenge(p, resp) || IsIUAMChallenge(p, resp)
  }

  function SignalOf(g: Guard): (s: Signal)
    ensures s != NoChallenge
  {
    match g
    case FirewallGuard => Code1020
    case NewCaptchaGuard => ChallengeV2Captcha
    case NewIUAMGuard => ChallengeV2JS
    case V1Guard => ChallengeV1
  }

  /** `gs[k]` is the first guard of `gs` that fires. */
  predicate FirstFiresAt(p: Patterns, resp: Response, gs: seq<Guard>, k: int)
  {
    && 0 <= k < |gs|
    && Fires(p, resp, gs[k])
    && forall i :: 0 <= i < k ==> !Fires(p, resp, gs[i])
  }

  /**
    Testing guards in order and stopping at the first that fires (the signalling
    call raises): the result is the signal of the first firing guard, or
    NoChallenge when none fires.
   */
  function FirstFiring(p: Patterns, resp: Response, gs: seq<Guard>): (s: Signal)
    ensures s == NoChallenge <==> forall i :: 0 <= i < |gs| ==> !Fires(p, resp, gs[i])
    ensures forall k :: FirstFiresAt(p, resp, gs, k) ==> s == SignalOf(gs[k])
    decreases |gs|
  {
    if gs == [] then NoChallenge
    else if Fires(p, resp, gs[0]) then SignalOf(gs[0])
    else
      var s := FirstFiring(p, resp, gs[1..]);
      assert forall k :: FirstFiresAt(p, resp, gs, k) ==> FirstFiresAt(p, resp, gs[1..], k - 1);
      s
  }

  /** The number of guards in `gs` that fire. */
  function FiringCount(p: Patterns, resp: Response, gs: seq<Guard>): nat
    decreases |gs|
  {
    if gs == [] then 0
    else (if Fires(p, resp, gs[0]) then 1 else 0) + FiringCount(p, resp, gs[1..])
  }

  /**
    The calls `simpleException` would receive, in order, if it returned instead of
    raising: one per firing guard, carrying that guard's signal.
   */
  function CallsIfReturning(p: Patterns, resp: Response, gs: seq<Guard>): (calls: seq<Signal>)
    ensures |calls| == FiringCount(p, resp, gs)
    ensures calls == [] <==> forall i :: 0 <= i < |gs| ==> !Fires(p, resp, gs[i])
    ensures forall c :: c in calls ==> c != NoChallenge
    ensures forall c :: c in calls <==> exists i :: 0 <= i < |gs| && Fires(p, resp, gs[i]) && c == SignalOf(gs[i])
    decreases |gs|
  {
    if gs == [] then []
    else
      var rest := CallsIfReturning(p, resp, gs[1..]);
      assert forall i :: 1 <= i < |gs| ==> gs[i] == gs[1..][i - 1];
      if Fires(p, resp, gs[0]) then [SignalOf(gs[0])] + rest else rest
  }

  /**
    `is_Challenge_Request`, with `simpleException` raising and so ending the call at
    the first firing guard.
   */
  function Classify(p: Patterns, resp: Response): (s: Signal)
    ensures s == Code1020 <==> IsFirewallBlocked(resp)
    ensures s == ChallengeV2Captcha <==> IsNewCaptchaChallenge(p, resp) && !IsFirewallBlocked(resp)
    ensures s == ChallengeV2JS <==> IsNewIUAMChallenge(p, resp)
    ensures s == ChallengeV1 <==>
              || (IsCaptchaChallenge(p, resp) && !IsFirewallBlocked(resp) && !IsNewCaptchaChallenge(p, resp))
              || (IsIUAMChallenge(p, resp) && !IsNewIUAMChallenge(p, resp))
    ensures s == NoChallenge <==>
              !IsFirewallBlocked(resp) && !IsCaptchaChallenge(p, resp) && !IsIUAMChallenge(p, resp)
              && !IsNewIUAMChallenge(p, resp)
  {
    FirstFiring(p, resp, Precedence)
  }

  /*
   * What the caller sees
   */

  /** The exception classes the dispatcher raises. */
  datatype ExceptionClass = CloudflareCode1020 | CloudflareChallengeError

  /** Either `simpleException` raised the given exception, or the call returned False. */
  datatype Outcome = Raise(exception: ExceptionClass, message: string) | ReturnFalse

  const BlockedMessage: string := "Cloudflare has blocked this request (Code 1020 Detected)."
  const V2CaptchaMessage: string :=
    "Detected a Cloudflare version 2 Captcha challenge, This feature is not available in the opensource (free) version."
  const V2Message: string :=
    "Detected a Cloudflare version 2 challenge, This feature is not available in the opensource (free) version."
  const V1Message: string := "Detected a Cloudflare version 1 challenge."

  /** The exception (class and message) raised for a signal. */
  function OutcomeOf(s: Signal): (o: Outcome)
    ensures o.ReturnFalse? <==> s == NoChallenge
    ensures o.Raise? ==> (o.exception == CloudflareCode1020 <==> s == Code1020)
  {
    match s
    case Code1020 => Raise(CloudflareCode1020, BlockedMessage)
    case ChallengeV2Captcha => Raise(CloudflareChallengeError, V2CaptchaMessage)
    case ChallengeV2JS => Raise(CloudflareChallengeError, V2Message)
    case ChallengeV1 => Raise(CloudflareChallengeError, V1Message)
    case NoChallenge => ReturnFalse
  }

  /** The server-and-status part of a predicate, evaluated with a character-by-character prefix test. */
  method CheckServerAndStatus(resp: Response, codes: set<int>) returns (b: bool)
    ensures b <==> ServedByCloudflare(resp) && StatusIn(resp, codes)
  {
    if resp.headers.Missing? || resp.statusCode.Missing? {
      return false;
    }
    var server := HeaderGet(resp.headers.value, ServerHeaderName, "");
    b := StartsWith(server, CloudflarePrefix);
    b := b && resp.statusCode.value in codes;
  }

  /** `is_Firewall_Blocked`, evaluated with a left-to-right search for the marker. */
  method CheckFirewall(resp: Response) returns (b: bool)
    ensures b <==> IsFirewallBlocked(resp)
  {
    b := CheckServerAndStatus(resp, {BlockedStatus});
    if !b || resp.text.Missing? {
      return false;
    }
    var found := Search(resp.text.value, FirewallMarker);
    return found.At?;
  }

  /**
    `is_Challenge_Request`, statement by statement: each `if` tests the truthiness of
    a predicate as the interpreter evaluates it, and a guard that fires ends the call
    with the exception `simpleException` raises.
   */
  method IsChallengeRequest(p: Patterns, resp: Response) returns (o: Outcome)
    ensures o == OutcomeOf(Classify(p, resp))
  {
    if Truthy(FirewallAsWritten(resp)) {
      return Raise(CloudflareCode1020, BlockedMessage);
    }
    if Truthy(NewCaptchaAsWritten(p, resp)) {
      return Raise(CloudflareChallengeError, V2CaptchaMessage);
    }
    if Truthy(NewIUAMAsWritten(p, resp)) {
      return Raise(CloudflareChallengeError, V2Message);
    }
    if Truthy(CaptchaAsWritten(p, resp)) || Truthy(IUAMAsWritten(p, resp)) {
      return Raise(CloudflareChallengeError, V1Message);
    }
    return ReturnFalse;
  }
}
