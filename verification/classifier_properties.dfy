/**
  Properties of the classifier: what a non-Cloudflare or malformed response yields,
  how the status codes split the predicates into two exclusive families, and the
  precedence of the dispatcher.
 */
module ClassifierProperties {
  import opened Responses
  import opened TextSearch
  import opened Cloudflare

  /** No predicate holds for a response not served by Cloudflare, and nothing is signalled. */
  lemma NotCloudflareIsNoChallenge(p: Patterns, resp: Response)
    requires !ServedByCloudflare(resp)
    ensures !IsIUAMChallenge(p, resp) && !IsNewIUAMChallenge(p, resp)
    ensures !IsCaptchaChallenge(p, resp) && !IsNewCaptchaChallenge(p, resp) && !IsFirewallBlocked(resp)
    ensures Classify(p, resp) == NoChallenge
    ensures OutcomeOf(Classify(p, resp)) == ReturnFalse
  {
  }

  /** A missing Server header reads as `''`, which does not start with `cloudflare`. */
  lemma NoServerHeaderIsNoChallenge(p: Patterns, resp: Response)
    requires resp.headers.Present? && ServerHeaderName !in resp.headers.value
    ensures Classify(p, resp) == NoChallenge
  {
  }

  /** A missing `headers`, `status_code` or `text` attribute makes every predicate false. */
  lemma MissingAttributeIsNoChallenge(p: Patterns, resp: Response)
    requires resp.headers.Missing? || resp.statusCode.Missing? || resp.text.Missing?
    ensures !IsIUAMChallenge(p, resp) && !IsNewIUAMChallenge(p, resp)
    ensures !IsCaptchaChallenge(p, resp) && !IsNewCaptchaChallenge(p, resp) && !IsFirewallBlocked(resp)
    ensures Classify(p, resp) == NoChallenge
  {
  }

  /** The captcha and firewall predicates need status 403. */
  predicate InBlockedFamily(p: Patterns, resp: Response)
  {
    IsCaptchaChallenge(p, resp) || IsNewCaptchaChallenge(p, resp) || IsFirewallBlocked(resp)
  }

  /** The two JavaScript-challenge predicates need status 429 or 503. */
  predicate InIUAMFamily(p: Patterns, resp: Response)
  {
    IsIUAMChallenge(p, resp) || IsNewIUAMChallenge(p, resp)
  }

  /** No response is both a captcha/firewall page and a JavaScript-challenge page. */
  lemma FamiliesExclusive(p: Patterns, resp: Response)
    ensures InBlockedFamily(p, resp) ==> resp.statusCode == Present(403)
    ensures InIUAMFamily(p, resp) ==> resp.statusCode.Present? && resp.statusCode.value in {429, 503}
    ensures !(InBlockedFamily(p, resp) && InIUAMFamily(p, resp))
  {
  }

  /** The version 2 JavaScript challenge is false when either of its two markers is absent. */
  lemma NewIUAMNeedsBothMarkers(p: Patterns, resp: Response)
    requires resp.text.Present?
    requires !p.jschOrchestrate(resp.text.value) || !p.chlEnter(resp.text.value)
    ensures !IsNewIUAMChallenge(p, resp)
    ensures Classify(p, resp) != ChallengeV2JS
  {
  }

  /** A firewall block is reported as Code 1020 whatever the other predicates say. */
  lemma FirewallTakesPrecedence(p: Patterns, resp: Response)
    requires IsFirewallBlocked(resp)
    ensures Classify(p, resp) == Code1020
    ensures OutcomeOf(Classify(p, resp)) == Raise(CloudflareCode1020, BlockedMessage)
  {
  }

  /** A version 2 captcha page, not firewall-blocked, is never reported as version 1. */
  lemma V2CaptchaSupersedesV1(p: Patterns, resp: Response)
    requires IsNewCaptchaChallenge(p, resp) && !IsFirewallBlocked(resp)
    ensures IsCaptchaChallenge(p, resp)
    ensures Classify(p, resp) == ChallengeV2Captcha
    ensures Classify(p, resp) != ChallengeV1
  {
  }

  /** A version 1 captcha or JavaScript match that no earlier guard catches gets the one shared version 1 signal. */
  lemma V1Fallthrough(p: Patterns, resp: Response)
    requires IsCaptchaChallenge(p, resp) || IsIUAMChallenge(p, resp)
    requires !IsFirewallBlocked(resp) && !IsNewCaptchaChallenge(p, resp) && !IsNewIUAMChallenge(p, resp)
    ensures Classify(p, resp) == ChallengeV1
    ensures OutcomeOf(Classify(p, resp)) == Raise(CloudflareChallengeError, V1Message)
  {
  }

  /** Distinct signals raise distinct exceptions, so the caller can tell the variants apart. */
  lemma OutcomeIdentifiesSignal(s: Signal, t: Signal)
    requires OutcomeOf(s) == OutcomeOf(t)
    ensures s == t
  {
  }

  /** With `simpleException` raising, the dispatcher reports the first call it would make if it returned. */
  lemma {:induction false} FirstFiringIsFirstCall(p: Patterns, resp: Response, gs: seq<Guard>)
    ensures CallsIfReturning(p, resp, gs) == [] ==> FirstFiring(p, resp, gs) == NoChallenge
    ensures CallsIfReturning(p, resp, gs) != [] ==> FirstFiring(p, resp, gs) == CallsIfReturning(p, resp, gs)[0]
    decreases |gs|
  {
    if gs != [] && !Fires(p, resp, gs[0]) {
      FirstFiringIsFirstCall(p, resp, gs[1..]);
    }
  }

  /**
    The calls come in guard order: the first is the first firing guard's signal,
    and the rest are the calls the guards after it would make.
   */
  lemma {:induction false} CallsInGuardOrder(p: Patterns, resp: Response, gs: seq<Guard>, k: int)
    requires FirstFiresAt(p, resp, gs, k)
    ensures CallsIfReturning(p, resp, gs) == [SignalOf(gs[k])] + CallsIfReturning(p, resp, gs[k + 1..])
    decreases |gs|
  {
    if k > 0 {
      assert FirstFiresAt(p, resp, gs[1..], k - 1);
      CallsInGuardOrder(p, resp, gs[1..], k - 1);
      assert gs[1..][k..] == gs[k + 1..];
    }
  }

  /** Swapping two adjacent guards that never fire together leaves the reported signal unchanged. */
  lemma {:induction false} SwapExclusiveGuards(p: Patterns, resp: Response, gs: seq<Guard>, i: nat)
    requires i + 1 < |gs|
    requires !(Fires(p, resp, gs[i]) && Fires(p, resp, gs[i + 1]))
    ensures FirstFiring(p, resp, gs[i := gs[i + 1]][i + 1 := gs[i]]) == FirstFiring(p, resp, gs)
    decreases i
  {
    var swapped := gs[i := gs[i + 1]][i + 1 := gs[i]];
    if i == 0 {
      assert swapped[2..] == gs[2..];
      if !Fires(p, resp, gs[0]) && !Fires(p, resp, gs[1]) {
        assert swapped[1..][1..] == gs[1..][1..];
      }
    } else {
      assert swapped[1..] == gs[1..][i - 1 := gs[i + 1]][i := gs[i]];
      SwapExclusiveGuards(p, resp, gs[1..], i - 1);
    }
  }

  /**
    The two version 2 guards never fire together (403 against 429/503), so testing
    the JavaScript one before the captcha one would report the same signal.
   */
  lemma V2GuardsCommute(p: Patterns, resp: Response)
    ensures FirstFiring(p, resp, [FirewallGuard, NewIUAMGuard, NewCaptchaGuard, V1Guard]) == Classify(p, resp)
  {
  }

  /**
    The precedence of the firewall guard over the version 2 captcha guard is
    observable: a 403 Cloudflare page carrying the 1020 marker whose body the three
    captcha patterns also accept is Code 1020, but would be reported as a version 2
    captcha with the two guards swapped.
   */
  lemma FirewallOrderMatters(p: Patterns, before: string, after: string)
    requires p.captchaAction(before + FirewallMarker + after)
    requires p.captchaOrchestrate(before + FirewallMarker + after)
    requires p.trkCaptchaJs(before + FirewallMarker + after)
    ensures var resp := Response(Present(map[ServerHeaderName := CloudflarePrefix]), Present(403),
                                 Present(before + FirewallMarker + after));
            && Classify(p, resp) == Code1020
            && FirstFiring(p, resp, [NewCaptchaGuard, FirewallGuard, NewIUAMGuard, V1Guard]) == ChallengeV2Captcha
  {
    ContainsEmbedded(before, FirewallMarker, after);
  }

  /** A 403 Cloudflare page with the 1020 marker anywhere in its body is reported as Code 1020. */
  lemma FirewallExample(p: Patterns, before: string, after: string)
    ensures Classify(p, Response(Present(map["server" := "cloudflare"]), Present(403), Present(before + FirewallMarker + after)))
            == Code1020
  {
    ContainsEmbedded(before, FirewallMarker, after);
  }

  /** A 200 page served by nginx is no challenge, whatever its body. */
  lemma NginxExample(p: Patterns, body: string)
    ensures Classify(p, Response(Present(map["server" := "nginx"]), Present(200), Present(body))) == NoChallenge
  {
  }
}
