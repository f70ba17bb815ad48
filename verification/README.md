# Cloudflare challenge classifier — Dafny model

This project models the challenge classifier of cloudscraper's `Cloudflare` class
(`cloudscraper/cloudflare.py`). It has five stateless predicates over an HTTP response:

- `is_IUAM_Challenge`: the v1 JavaScript "I'm Under Attack Mode" page.
- `is_New_IUAM_Challenge`: the v2 JavaScript page.
- `is_Captcha_Challenge`: the v1 captcha page.
- `is_New_Captcha_Challenge`: the v2 captcha page.
- `is_Firewall_Blocked`: the hard "Code 1020" block page.

Each predicate checks three things:

- the `Server` header starts with `cloudflare`;
- the status code is 403, or 429/503;
- one to three body patterns match (`is_New_Captcha_Challenge` tests the captcha action pattern through `is_Captcha_Challenge`, then two markers of its own).

The dispatcher `is_Challenge_Request` tests the predicates in a fixed order: firewall → v2 captcha → v2 JavaScript → v1 captcha-or-JavaScript. The first match raises an exception through `simpleException`. If nothing matches, it returns `False`.

Files:

- `responses.dfy` (`Responses`): the response object. It holds only the three attributes the classifier reads (`headers`, `status_code`, `text`). Each attribute may be missing (`Attr.Missing`); reading a missing attribute raises AttributeError in Python. The `Server` lookup defaults to `''`.
- `text_search.dfy` (`TextSearch`): `str.startswith` and `re.search` for a plain literal. Each has a specification predicate and a loop implementation proved against it.
- `py_eval.dfy` (`PyEval`): the Python semantics the predicates depend on:
  - the values an `and` chain yields (`False`, `None`, a match object);
  - truthiness;
  - short-circuiting;
  - the `try … except AttributeError: pass; return False` wrapper.
- `cloudflare.dfy` (`Cloudflare`):
  - the five predicates, in a clean form where a missing attribute reads as "no match";
  - each predicate again as the interpreter evaluates it (`…AsWritten`), proved truthy exactly when the clean form holds;
  - the guard order, and the first-match dispatcher `Classify`;
  - the exceptions raised, and a statement-by-statement method `IsChallengeRequest`.
- `classifier_properties.dfy` (`ClassifierProperties`): lemmas about the model. They cover non-Cloudflare and malformed responses, status-code families that exclude each other, precedence, supersession, and commuting guards.

The body regular expressions are opaque. Each one is a total matcher `string -> bool` in the `Patterns` record that the caller passes in, so every property holds whatever the expressions match. The firewall marker `<span class="cf-error-code">1020</span>` is a plain literal. It is searched for concretely.

`simpleException` is a method of the scraper object passed to the constructor (cloudscraper/cloudflare.py:40-41). The model assumes it raises the exception it is given, which ends the call at the first guard that fires. `Classify` and `IsChallengeRequest` rely on this assumption. `CallsIfReturning` lists the calls the dispatcher would make if `simpleException` returned instead. `FirstFiringIsFirstCall` proves that the reported signal is the first of those calls.

`is_Challenge_Request` raises the same `CloudflareChallengeError` with the same message for a v1 captcha page and a v1 JavaScript page (cloudscraper/cloudflare.py:185-189), so the model has one `ChallengeV1` signal.

## Model

| member | source | states |
|---|---|---|
| Cloudflare.IUAMAsWritten | cloudscraper/cloudflare.py:61-76 | the try/`and`-chain evaluation never yields `True` itself, and is truthy exactly when the reference definition `IsIUAMChallenge` holds (Cloudflare server, status 429 or 503, challenge-form pattern); a missing attribute is caught and reads as False |
| Cloudflare.NewIUAMAsWritten | cloudscraper/cloudflare.py:82-98 | the interpreter's evaluation never yields `True` itself, and is truthy exactly when the reference definition `IsNewIUAMChallenge` holds (Cloudflare server, status 429 or 503, both the `orchestrate/jsch/v1` and the `window._cf_chl_enter` markers); a missing attribute reads as False |
| Cloudflare.NewCaptchaAsWritten | cloudscraper/cloudflare.py:104-118 | the interpreter's evaluation, which calls the self-catching v1 captcha check first, is truthy exactly when the reference definition `IsNewCaptchaChallenge` holds (the v1 captcha page plus the captcha/managed orchestrate marker and the `trk_captcha_js` id) |
| Cloudflare.CaptchaAsWritten | cloudscraper/cloudflare.py:124-139 | the interpreter's evaluation never yields `True` itself, and is truthy exactly when the reference definition `IsCaptchaChallenge` holds (Cloudflare server, status 403, captcha action pattern); a missing attribute reads as False |
| Cloudflare.FirewallAsWritten | cloudscraper/cloudflare.py:145-160 | the interpreter's evaluation never yields `True` itself, and is truthy exactly when the reference definition `IsFirewallBlocked` holds (Cloudflare server, status 403, the literal 1020 marker somewhere in the body); a missing attribute reads as False |
| PyEval.And | cloudscraper/cloudflare.py:64-72 | an `and` chain is truthy iff both operands evaluate to truthy values, and a falsy left operand is the result with the right one never evaluated |
| PyEval.ReturnCatching | cloudscraper/cloudflare.py:63-76 | the try/except wrapper returns a truthy value iff the guarded expression evaluates to one, and returns False when it raises AttributeError |
| TextSearch.StartsWith | cloudscraper/cloudflare.py:65 | the character-by-character test answers true exactly when the prefix is a prefix of the string |
| TextSearch.Search | cloudscraper/cloudflare.py:151-155 | the scan returns the leftmost occurrence of a literal, and reports none exactly when the literal occurs nowhere |
| TextSearch.ContainsEmbedded | cloudscraper/cloudflare.py:151-155 | a literal placed anywhere in a text is found by the search |
| Cloudflare.CheckServerAndStatus | cloudscraper/cloudflare.py:149-150 | the executable server-prefix and status test agrees with the specification predicates |
| Cloudflare.CheckFirewall | cloudscraper/cloudflare.py:145-160 | the executable firewall check (prefix loop, then marker search) agrees with `IsFirewallBlocked` |
| Cloudflare.FirstFiring | cloudscraper/cloudflare.py:166-191 | testing guards in order yields no signal iff no guard fires, and otherwise yields the signal of the first guard that fires |
| Cloudflare.CallsIfReturning | cloudscraper/cloudflare.py:166-191 | if `simpleException` returned, it would be called exactly once per firing guard, with exactly the signals of the firing guards, never with "no challenge", and not at all iff no guard fires |
| Cloudflare.Classify | cloudscraper/cloudflare.py:166-191 | Code 1020 iff firewall-blocked; v2 captcha iff a v2 captcha page that is not firewall-blocked; v2 JavaScript iff a v2 JavaScript page; the shared v1 signal iff a v1 captcha or v1 JavaScript page no earlier guard claims; nothing iff none of the predicates hold |
| Cloudflare.OutcomeOf | cloudscraper/cloudflare.py:167-191 | only "no challenge" returns False; every other signal raises, and `CloudflareCode1020` is raised exactly for the firewall block |
| Cloudflare.IsChallengeRequest | cloudscraper/cloudflare.py:166-191 | the statement-by-statement dispatcher, whose `if`s test the truthiness of the interpreter-evaluated predicates, raises or returns exactly what the first-match classification prescribes |
| ClassifierProperties.NotCloudflareIsNoChallenge | cloudscraper/cloudflare.py:65-191 | without a `cloudflare` Server prefix all five predicates are false and the dispatcher returns False |
| ClassifierProperties.NoServerHeaderIsNoChallenge | cloudscraper/cloudflare.py:65 | an absent Server header defaults to `''` and so yields no challenge |
| ClassifierProperties.MissingAttributeIsNoChallenge | cloudscraper/cloudflare.py:73-76 | a missing `headers`, `status_code` or `text` attribute makes every predicate false and the dispatcher report nothing |
| ClassifierProperties.FamiliesExclusive | cloudscraper/cloudflare.py:66-150 | captcha and firewall predicates need 403, the JavaScript predicates need 429/503, so no response is in both families |
| ClassifierProperties.NewIUAMNeedsBothMarkers | cloudscraper/cloudflare.py:88-93 | either script marker alone leaves the v2 JavaScript predicate false and the v2 JavaScript signal unreported |
| ClassifierProperties.FirewallTakesPrecedence | cloudscraper/cloudflare.py:167-171 | a firewall-blocked response raises `CloudflareCode1020` whatever the other predicates say |
| ClassifierProperties.V2CaptchaSupersedesV1 | cloudscraper/cloudflare.py:173-189 | a v2 captcha page that is not firewall-blocked is reported as v2 captcha, never as v1 |
| ClassifierProperties.V1Fallthrough | cloudscraper/cloudflare.py:185-189 | a v1 captcha or v1 JavaScript match no earlier guard catches raises the shared v1 exception |
| ClassifierProperties.OutcomeIdentifiesSignal | cloudscraper/cloudflare.py:167-189 | distinct signals raise distinct exceptions (class or message), so the exception tells the caller which variant was detected |
| ClassifierProperties.FirstFiringIsFirstCall | cloudscraper/cloudflare.py:166-191 | the first-match result is the first signal the dispatcher would issue if `simpleException` returned, or no challenge when it would issue none |
| ClassifierProperties.CallsInGuardOrder | cloudscraper/cloudflare.py:166-191 | the calls that would be made come in guard order: the first firing guard's signal, then the calls of the guards after it |
| ClassifierProperties.SwapExclusiveGuards | cloudscraper/cloudflare.py:166-191 | exchanging two adjacent guards that never fire together does not change the reported signal |
| ClassifierProperties.V2GuardsCommute | cloudscraper/cloudflare.py:173-183 | the two v2 guards are exclusive by status code, so their relative order does not matter |
| ClassifierProperties.FirewallOrderMatters | cloudscraper/cloudflare.py:167-177 | for any patterns under which a 403 Cloudflare page with the 1020 marker also matches the three captcha patterns, the source order reports Code 1020 while the order with the v2 captcha guard first would report v2 captcha |
| ClassifierProperties.FirewallExample | cloudscraper/cloudflare.py:145-171 | a 403 `cloudflare` response whose body contains the 1020 marker anywhere is reported as Code 1020 |
| ClassifierProperties.NginxExample | cloudscraper/cloudflare.py:65-191 | a 200 response from `nginx` is no challenge whatever its body |

## Left out

- `unescape` (cloudscraper/cloudflare.py:47-55) is left out. It dispatches on the Python version to an HTML-entity decoder from a foreign library, and classification never uses it.
- The import fallbacks (cloudscraper/cloudflare.py:12-23) are left out. They are platform plumbing that the classifier does not use.
- The exact semantics of the body regular expressions (lines 68, 89, 93, 109, 113, 131) are left out, including the `re.M`/`re.S` flags. Each expression is an opaque caller-supplied matcher. The firewall marker (line 152) is a literal, so those flags do not affect it, and it is modelled concretely.
- `simpleException` and the exception classes from `.exceptions` are not part of this model. A raise is modelled as a returned `Outcome` tag, on the assumption that `simpleException` raises the exception it is given.
- Header names are looked up case-insensitively. The model stores them already lower-cased and leaves the case folding to the HTTP library.
- A `text` attribute that is present but is not a string is left out. It raises TypeError, which the predicates do not catch, so the model makes no claim about it.
- Idempotence is not stated as a lemma. It holds trivially: the model is a set of pure functions of an immutable response.
